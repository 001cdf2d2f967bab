/** Parsed JSON values and the few Python operations the importers apply to
    them (`k in x`, `x[k]`, `x[0]`, `x.get(k, d)`, iteration, truthiness,
    `str(x)`, `s.startswith(p)`, `s.split('/')[-1]`).  Every operation that
    can raise in Python returns a `Py` value: `Raised` stands for any
    exception (KeyError, IndexError, TypeError, AttributeError). */
module PyJson {

  /** A JSON document as `json.load` returns it.  An object keeps its keys
      in document order, each key once: where the text repeats a key,
      `json.load` keeps the last value, and the object here is the dict it
      builds.  Numbers are integers. */
  datatype Json =
    | JNull
    | JBool(b: bool)
    | JNum(n: int)
    | JStr(s: string)
    | JArr(items: seq<Json>)
    | JObj(fields: seq<(string, Json)>)

  /** The outcome of a Python expression: a value, or an exception. */
  datatype Py<+T> = Ok(value: T) | Raised {
    predicate IsFailure() { Raised? }
    function PropagateFailure<U>(): Py<U> { Raised }
    function Extract(): T requires Ok? { value }
  }

  datatype Option<+T> = None | Some(value: T)

  /** The value stored under key `k`, if any (the first entry with `k`;
      a dict built by `json.load` has at most one). */
  function Lookup(fields: seq<(string, Json)>, k: string): Option<Json> {
    if fields == [] then None
    else if fields[0].0 == k then Some(fields[0].1)
    else Lookup(fields[1..], k)
  }

  predicate IsDict(j: Json) { j.JObj? }
  predicate IsList(j: Json) { j.JArr? }

  /** `sub` occurs in `s` as a contiguous block. */
  predicate IsSubstring(sub: string, s: string) {
    StartsWith(s, sub) || (s != [] && IsSubstring(sub, s[1..]))
  }

  predicate StartsWith(s: string, prefix: string) {
    |prefix| <= |s| && s[..|prefix|] == prefix
  }

  /** Python `k in x` for a string `k`: key test on a dict, membership on a
      list, substring test on a string; anything else raises TypeError. */
  function In(k: string, x: Json): (r: Py<bool>)
    ensures r.Raised? <==> !(x.JObj? || x.JArr? || x.JStr?)
    ensures x.JObj? ==> r == Ok(Lookup(x.fields, k).Some?)
  {
    match x
    case JObj(fs) => Ok(Lookup(fs, k).Some?)
    case JArr(items) => Ok(JStr(k) in items)
    case JStr(s) => Ok(IsSubstring(k, s))
    case _ => Raised
  }

  /** Python `x[k]` for a string `k`: only a dict holding `k` answers. */
  function Index(x: Json, k: string): (r: Py<Json>)
    ensures r.Ok? <==> x.JObj? && Lookup(x.fields, k).Some?
    ensures r.Ok? ==> r.value == Lookup(x.fields, k).value
  {
    if x.JObj? then
      match Lookup(x.fields, k)
      case Some(v) => Ok(v)
      case None => Raised
    else Raised
  }

  /** Python `x[i]` for a natural `i`: list element, one-character string,
      and a KeyError on a dict (JSON keys are strings). */
  function At(x: Json, i: nat): (r: Py<Json>)
    ensures r.Ok? <==> (x.JArr? && i < |x.items|) || (x.JStr? && i < |x.s|)
    ensures x.JArr? && i < |x.items| ==> r == Ok(x.items[i])
  {
    match x
    case JArr(items) => if i < |items| then Ok(items[i]) else Raised
    case JStr(s) => if i < |s| then Ok(JStr([s[i]])) else Raised
    case _ => Raised
  }

  /** Python `x.get(k, default)`: defined on dicts only. */
  function Get(x: Json, k: string, default: Json): (r: Py<Json>)
    ensures r.Ok? <==> x.JObj?
    ensures x.JObj? && Lookup(x.fields, k).None? ==> r == Ok(default)
    ensures x.JObj? && Lookup(x.fields, k).Some? ==> r == Ok(Lookup(x.fields, k).value)
  {
    if x.JObj? then
      match Lookup(x.fields, k)
      case Some(v) => Ok(v)
      case None => Ok(default)
    else Raised
  }

  /** The keys of a dict, as Python's iteration over a dict yields them. */
  function Keys(fields: seq<(string, Json)>): (r: seq<Json>)
    ensures |r| == |fields|
    ensures forall i :: 0 <= i < |r| ==> r[i] == JStr(fields[i].0)
  {
    if fields == [] then [] else [JStr(fields[0].0)] + Keys(fields[1..])
  }

  /** The characters of a string, each as a one-character string. */
  function Chars(s: string): (r: seq<Json>)
    ensures |r| == |s|
    ensures forall i :: 0 <= i < |r| ==> r[i] == JStr([s[i]])
  {
    if s == [] then [] else [JStr([s[0]])] + Chars(s[1..])
  }

  /** Python `for item in x`. */
  function Iter(x: Json): (r: Py<seq<Json>>)
    ensures r.Ok? <==> x.JArr? || x.JObj? || x.JStr?
    ensures x.JArr? ==> r == Ok(x.items)
  {
    match x
    case JArr(items) => Ok(items)
    case JObj(fs) => Ok(Keys(fs))
    case JStr(s) => Ok(Chars(s))
    case _ => Raised
  }

  /** Python `len(x)`. */
  function Len(x: Json): (r: Py<nat>)
    ensures r.Ok? <==> x.JArr? || x.JObj? || x.JStr?
    ensures x.JArr? ==> r == Ok(|x.items|)
  {
    match x
    case JArr(items) => Ok(|items|)
    case JObj(fs) => Ok(|fs|)
    case JStr(s) => Ok(|s|)
    case _ => Raised
  }

  /** Python truthiness of a JSON value. */
  predicate Truthy(x: Json) {
    match x
    case JNull => false
    case JBool(b) => b
    case JNum(n) => n != 0
    case JStr(s) => s != ""
    case JArr(items) => items != []
    case JObj(fs) => fs != []
  }

  /** Python `x.startswith(p)`: only strings have it. */
  function StartsWithPy(x: Json, prefix: string): (r: Py<bool>)
    ensures r.Ok? <==> x.JStr?
    ensures x.JStr? ==> r == Ok(StartsWith(x.s, prefix))
  {
    if x.JStr? then Ok(StartsWith(x.s, prefix)) else Raised
  }

  /** The range of SQLite's 64-bit signed INTEGER. */
  const MinInt64: int := -0x8000_0000_0000_0000
  const MaxInt64: int := 0x7FFF_FFFF_FFFF_FFFF

  /** Whether sqlite3 can bind the value as a statement parameter: lists
      and dicts make it raise, and so does an integer outside 64 bits
      (OverflowError). */
  predicate Bindable(x: Json) {
    !x.JArr? && !x.JObj? && (x.JNum? ==> MinInt64 <= x.n <= MaxInt64)
  }

  /** Whether the value can be put in a Python set: lists and dicts are
      unhashable. */
  predicate Hashable(x: Json) { !x.JArr? && !x.JObj? }

  /** The text of `s` after its last `sep`: Python `s.split(sep)[-1]`. */
  function AfterLast(s: string, sep: char): string
    decreases |s|
  {
    if s == [] then []
    else if s[|s| - 1] == sep then []
    else AfterLast(s[..|s| - 1], sep) + [s[|s| - 1]]
  }

  /** `s.split(sep)[-1]` is the longest suffix of `s` without `sep`: all of
      `s` when `sep` does not occur, else what follows its last `sep`. */
  lemma {:induction false} AfterLastSplit(s: string, sep: char)
    ensures var r := AfterLast(s, sep);
      && sep !in r
      && |r| <= |s| && r == s[|s| - |r|..]
      && (sep !in s ==> r == s)
      && (sep in s ==> |r| < |s| && s[|s| - |r| - 1] == sep)
    decreases |s|
  {
    if s != [] && s[|s| - 1] != sep {
      var init := s[..|s| - 1];
      AfterLastSplit(init, sep);
      assert sep in init ==> sep in s;
      assert s == init + [s[|s| - 1]];
    }
  }

  // ---------------------------------------------------------------------
  // str() and repr() of a JSON value, for f-strings.

  function DigitChar(d: nat): char
    requires d < 10
  {
    "0123456789"[d]
  }

  /** Decimal digits of a natural number, without sign. */
  function NatDigits(n: nat): (r: string)
    ensures |r| >= 1
    decreases n
  {
    if n < 10 then [DigitChar(n)] else NatDigits(n / 10) + [DigitChar(n % 10)]
  }

  function IntText(n: int): string {
    if n < 0 then "-" + NatDigits(-n) else NatDigits(n)
  }

  /** Python `str(x)`: a string is itself, containers use `repr` of their
      elements.  Quote escaping inside a repr is not modelled. */
  function Str(x: Json): string
    decreases x, 1
  {
    match x
    case JNull => "None"
    case JBool(b) => if b then "True" else "False"
    case JNum(n) => IntText(n)
    case JStr(s) => s
    case JArr(items) => "[" + ReprItems(x, items) + "]"
    case JObj(fs) => "{" + ReprFields(x, fs) + "}"
  }

  function Repr(x: Json): string
    decreases x, 2
  {
    if x.JStr? then "'" + x.s + "'" else Str(x)
  }

  function ReprItems(ghost parent: Json, items: seq<Json>): string
    requires forall i :: 0 <= i < |items| ==> items[i] < parent
    decreases parent, 0, |items|
  {
    if items == [] then ""
    else if |items| == 1 then Repr(items[0])
    else Repr(items[0]) + ", " + ReprItems(parent, items[1..])
  }

  function ReprFields(ghost parent: Json, fs: seq<(string, Json)>): string
    requires forall i :: 0 <= i < |fs| ==> fs[i].1 < parent
    decreases parent, 0, |fs|
  {
    if fs == [] then ""
    else
      var entry := "'" + fs[0].0 + "': " + Repr(fs[0].1);
      if |fs| == 1 then entry else entry + ", " + ReprFields(parent, fs[1..])
  }

  // ---------------------------------------------------------------------
  // Paths into a document: the reference reading of "the value at
  // a.b[0].c, or null".

  datatype Step = Key(k: string) | Elem(i: nat)

  /** The value reached by following `steps` from `j`, if every step exists:
      a key of a dict, or an element of a list. */
  function Path(j: Json, steps: seq<Step>): Option<Json>
    decreases |steps|
  {
    if steps == [] then Some(j)
    else match steps[0]
      case Key(k) =>
        if j.JObj? && Lookup(j.fields, k).Some? then Path(Lookup(j.fields, k).value, steps[1..]) else None
      case Elem(i) =>
        if j.JArr? && i < |j.items| then Path(j.items[i], steps[1..]) else None
  }

  /** The value at the path, with JSON null (Python None) when it is missing. */
  function PathOr(j: Json, steps: seq<Step>): Json {
    match Path(j, steps)
    case Some(v) => v
    case None => JNull
  }

  lemma PathKey(j: Json, k: string, rest: seq<Step>)
    ensures Path(j, [Key(k)] + rest)
              == if j.JObj? && Lookup(j.fields, k).Some? then Path(Lookup(j.fields, k).value, rest) else None
  {
    assert ([Key(k)] + rest)[1..] == rest;
  }

  /** A one-key path is a lookup. */
  lemma PathOneKey(j: Json, k: string)
    ensures Path(j, [Key(k)]) == if j.JObj? && Lookup(j.fields, k).Some? then Some(Lookup(j.fields, k).value) else None
  {
    PathKey(j, k, []);
    assert [Key(k)] + [] == [Key(k)];
  }

  lemma PathElem(j: Json, i: nat, rest: seq<Step>)
    ensures Path(j, [Elem(i)] + rest)
              == if j.JArr? && i < |j.items| then Path(j.items[i], rest) else None
  {
    assert ([Elem(i)] + rest)[1..] == rest;
  }

  lemma PathNone(j: Json, steps: seq<Step>, rest: seq<Step>)
    requires Path(j, steps).None?
    ensures Path(j, steps + rest).None?
    decreases |steps|
  {
    assert (steps + rest)[1..] == steps[1..] + rest;
  }

  /** Following `a + b` is following `a`, then `b` from where `a` ends. */
  lemma {:induction false} PathAppend(j: Json, a: seq<Step>, b: seq<Step>)
    ensures Path(j, a + b) == if Path(j, a).Some? then Path(Path(j, a).value, b) else None
    decreases |a|
  {
    if a == [] {
      assert a + b == b;
    } else {
      assert (a + b)[0] == a[0];
      assert (a + b)[1..] == a[1..] + b;
      match a[0]
      case Key(k) =>
        if j.JObj? && Lookup(j.fields, k).Some? {
          PathAppend(Lookup(j.fields, k).value, a[1..], b);
        }
      case Elem(i) =>
        if j.JArr? && i < |j.items| {
          PathAppend(j.items[i], a[1..], b);
        }
    }
  }
}
