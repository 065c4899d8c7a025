/** The Python values and built-ins the normalisers rely on: JSON values held
    in dicts, the three states of a dict key, the exceptions that can escape,
    and the string built-ins `str.join`, `str.capitalize`, `str.rstrip`, the
    substring test `in` and list slicing `[:n]`. */
module PyData {
  import opened Wrappers

  /** A JSON value as TMDb returns it and as a Python dict holds it. */
  datatype Json =
    | JNull
    | JBool(b: bool)
    | JInt(i: int)
    | JNum(x: real)
    | JStr(s: string)
    | JArr(items: seq<Json>)
    | JObj(fields: map<string, Json>)

  /** One top-level key of a Python dict: absent, present with None, or
      present with a value. `dict.get` cannot tell the first two apart;
      `dict[key]` raises KeyError on the first and yields None on the second. */
  datatype Slot<+T> = Missing | Null | Has(value: T) {
    /** `d.get(key)` */
    function Get(): Option<T> {
      if Has? then Some(value) else None
    }
  }

  /** The exceptions that can escape from the modelled code. */
  datatype Error =
    | KeyError(key: string)
    | TypeError(what: string)
    | AttributeError(what: string)
    | IndexError(what: string)
    | ValueError(message: string)
    | UnboundLocalError(name: string)
    | NoEntriesFound

  /** A string slot as the value `d.pop(key, None)` or `d.get(key)` yields. */
  function StrOrNull(s: Slot<string>): Json {
    if s.Has? then JStr(s.value) else JNull
  }

  /** `d.get(key, "")` for a string slot: the default only for an absent key. */
  function StrOrEmpty(s: Slot<string>): Json {
    match s
    case Missing => JStr("")
    case Null => JNull
    case Has(v) => JStr(v)
  }

  /** Truthiness of a string slot read with `d.get(key)`. */
  predicate TruthyStr(s: Slot<string>) {
    s.Has? && s.value != ""
  }

  /** The text an f-string renders for a value that may be None. */
  function FormatStr(s: Option<string>): string {
    if s.Some? then s.value else "None"
  }

  /** `sep.join(xs)` */
  function Join(xs: seq<string>, sep: string): string
    decreases |xs|
  {
    if |xs| == 0 then ""
    else if |xs| == 1 then xs[0]
    else Join(xs[..|xs| - 1], sep) + sep + xs[|xs| - 1]
  }

  /** `xs[:n]`: the first n elements, or all of them when there are fewer. */
  function Take<T>(xs: seq<T>, n: nat): (r: seq<T>)
    ensures |r| == if |xs| <= n then |xs| else n
    ensures r == xs[..|r|]
  {
    if |xs| <= n then xs else xs[..n]
  }

  function Upper(c: char): char {
    if 'a' <= c <= 'z' then c - 'a' + 'A' else c
  }

  function Lower(c: char): char {
    if 'A' <= c <= 'Z' then c - 'A' + 'a' else c
  }

  function LowerAll(s: string): (r: string)
    ensures |r| == |s|
    ensures forall i :: 0 <= i < |s| ==> r[i] == Lower(s[i])
  {
    if s == [] then [] else [Lower(s[0])] + LowerAll(s[1..])
  }

  /** `s.capitalize()` on ASCII text: the first letter upper-cased, every
      other letter lower-cased. */
  function Capitalize(s: string): (r: string)
    ensures |r| == |s|
    ensures |s| > 0 ==> r[0] == Upper(s[0])
    ensures forall i :: 0 < i < |s| ==> r[i] == Lower(s[i])
  {
    if s == [] then [] else [Upper(s[0])] + LowerAll(s[1..])
  }

  lemma CapitalizeMovie()
    ensures Capitalize("movie") == "Movie"
  {
    assert LowerAll("ovie") == "ovie";
  }

  /** `s.rstrip(c)`: s without its trailing run of c characters. */
  function RStrip(s: string, c: char): (r: string)
    ensures |r| <= |s| && r == s[..|r|]
    ensures r == [] || r[|r| - 1] != c
    ensures forall i :: |r| <= i < |s| ==> s[i] == c
    decreases |s|
  {
    if s == [] || s[|s| - 1] != c then s else RStrip(s[..|s| - 1], c)
  }

  /** `sub in s` for strings. */
  function Contains(s: string, sub: string): (r: bool)
    ensures r <==> exists i :: 0 <= i <= |s| - |sub| && IsAt(s, sub, i)
    decreases |s|
  {
    if |sub| > |s| then false
    else if s[..|sub|] == sub then (assert IsAt(s, sub, 0); true)
    else
      var r := Contains(s[1..], sub);
      assert r ==> exists i :: 0 <= i <= |s| - |sub| && IsAt(s, sub, i) by {
        if r {
          var i :| 0 <= i <= |s[1..]| - |sub| && IsAt(s[1..], sub, i);
          assert IsAt(s, sub, i + 1);
        }
      }
      assert (exists i :: 0 <= i <= |s| - |sub| && IsAt(s, sub, i)) ==> r by {
        if exists i :: 0 <= i <= |s| - |sub| && IsAt(s, sub, i) {
          var i :| 0 <= i <= |s| - |sub| && IsAt(s, sub, i);
          assert i != 0;
          assert IsAt(s[1..], sub, i - 1);
        }
      }
      r
  }

  /** sub occurs in s starting at index i. */
  predicate IsAt(s: string, sub: string, i: int)
    requires 0 <= i <= |s| - |sub|
  {
    s[i..i + |sub|] == sub
  }
}
