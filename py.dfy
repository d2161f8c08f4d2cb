/**
 * The slice of the Python runtime that the pipeline's own code relies on:
 * JSON values as `json.loads` and `httpx.Response.json` produce them, the
 * exceptions that can escape an operation, optional strings with Python's
 * truthiness, `s[:n]` slicing, `str.strip`, `str.split`, `str.join`, and an
 * insertion-ordered dictionary of string keys.
 */
module Py {

  datatype Option<+T> = None | Some(value: T)

  /** The exceptions that can leave one of the modelled operations. */
  datatype Error =
    | RequestError      // the scraper's own wrapper around an httpx failure
    | JSONDecodeError   // a response body that is not JSON
    | AttributeError    // `.get` or `.chat` on something that is not a dict / client
    | TypeError
    | ValueError        // float() of a string that is not a number
    | IndexError
    | ValidationError   // a dataset item that does not fit the VideoData schema
    | TimeoutError
    | ApiError          // an exception raised by the OpenAI client call itself

  datatype Result<+T> = Ok(value: T) | Err(error: Error)

  /** A JSON document; `Obj` is a Python dict built by the JSON decoder. */
  datatype Value =
    | Null
    | Bool(b: bool)
    | Num(n: real)
    | Str(s: string)
    | Arr(items: seq<Value>)
    | Obj(fields: map<string, Value>)

  /** Python truthiness of an `Optional[str]`: neither None nor "". */
  predicate Truthy(s: Option<string>) {
    s.Some? && s.value != ""
  }

  /** The expression `a or b` on two optional strings. */
  function Or(a: Option<string>, b: Option<string>): (r: Option<string>)
    ensures Truthy(a) ==> r == a
    ensures !Truthy(a) ==> r == b
  {
    if Truthy(a) then a else b
  }

  /** `os.environ.get(name)`, the process environment being a parameter. */
  function EnvGet(env: map<string, string>, name: string): (r: Option<string>)
    ensures r.Some? <==> name in env
    ensures r.Some? ==> r.value == env[name]
  {
    if name in env then Some(env[name]) else None
  }

  /** `v.get(key, default)`: only a dict has `.get`; anything else raises AttributeError. */
  function Get(v: Value, key: string, default: Value): (r: Result<Value>)
    ensures r.Ok? <==> v.Obj?
    ensures v.Obj? && key in v.fields ==> r == Ok(v.fields[key])
    ensures v.Obj? && key !in v.fields ==> r == Ok(default)
    ensures !v.Obj? ==> r == Err(AttributeError)
  {
    match v
    case Obj(m) => if key in m then Ok(m[key]) else Ok(default)
    case _ => Err(AttributeError)
  }

  /**
   * Python's `float(v)` on a decoded JSON value. `parseFloat` stands for
   * Python's grammar of float literals in strings, which is not modelled.
   */
  function Float(v: Value, parseFloat: string -> Option<real>): (r: Result<real>)
    ensures v.Num? ==> r == Ok(v.n)
    ensures v.Bool? ==> r == Ok(if v.b then 1.0 else 0.0)
    ensures v.Str? ==> (r.Ok? <==> parseFloat(v.s).Some?)
    ensures v.Null? || v.Arr? || v.Obj? ==> r == Err(TypeError)
    ensures r.Err? ==> r.error == TypeError || r.error == ValueError
  {
    match v
    case Num(n) => Ok(n)
    case Bool(b) => Ok(if b then 1.0 else 0.0)
    case Str(s) => (match parseFloat(s) case Some(x) => Ok(x) case None => Err(ValueError))
    case _ => Err(TypeError)
  }

  // ---------------------------------------------------------------------
  // Slicing

  /** The end index of the slice `[:n]` on a sequence of length `len`. */
  function SliceEnd(len: nat, n: int): (e: nat)
    ensures e <= len
    ensures 0 <= n ==> e == (if n < len then n else len)
    ensures n < 0 ==> e == (if len + n > 0 then len + n else 0)
  {
    if 0 <= n then (if n < len then n else len)
    else if len + n > 0 then len + n else 0
  }

  /** Python's `s[:n]`, including the meaning of a negative `n`. */
  function Take<T>(s: seq<T>, n: int): (r: seq<T>)
    ensures r <= s
    ensures 0 <= n ==> |r| == (if n < |s| then n else |s|)
    ensures n < 0 ==> |r| == (if |s| + n > 0 then |s| + n else 0)
  {
    s[..SliceEnd(|s|, n)]
  }

  // ---------------------------------------------------------------------
  // str.strip()

  /** The characters for which Python's `str.isspace()` holds; `strip()` removes these. */
  predicate IsSpace(c: char) {
    || c == ' '
    || ('\t' <= c <= '\r')
    || ('\U{1C}' <= c <= '\U{1F}')
    || c == '\U{85}' || c == '\U{A0}' || c == '\U{1680}'
    || ('\U{2000}' <= c <= '\U{200A}')
    || c == '\U{2028}' || c == '\U{2029}' || c == '\U{202F}' || c == '\U{205F}' || c == '\U{3000}'
  }

  predicate AllSpace(s: string) {
    forall i :: 0 <= i < |s| ==> IsSpace(s[i])
  }

  /** `s.lstrip()`. */
  function StripLeft(s: string): string
    decreases |s|
  {
    if |s| > 0 && IsSpace(s[0]) then StripLeft(s[1..]) else s
  }

  /** `s.rstrip()`. */
  function StripRight(s: string): string
    decreases |s|
  {
    if |s| > 0 && IsSpace(s[|s| - 1]) then StripRight(s[..|s| - 1]) else s
  }

  /** `lstrip` keeps the longest suffix whose removed prefix is all white space. */
  lemma {:induction false} StripLeftSpec(s: string)
    ensures var r := StripLeft(s);
      |r| <= |s| && r == s[|s| - |r|..] && AllSpace(s[..|s| - |r|]) && (r != [] ==> !IsSpace(r[0]))
    decreases |s|
  {
    if |s| > 0 && IsSpace(s[0]) {
      var t := s[1..];
      StripLeftSpec(t);
      var r := StripLeft(t);
      assert t[|t| - |r|..] == s[|s| - |r|..];
      assert s[..|s| - |r|] == [s[0]] + t[..|t| - |r|];
    } else {
      assert s[|s| - |s|..] == s;
    }
  }

  /** `rstrip` keeps the longest prefix whose removed suffix is all white space. */
  lemma {:induction false} StripRightSpec(s: string)
    ensures var r := StripRight(s);
      |r| <= |s| && r == s[..|r|] && AllSpace(s[|r|..]) && (r != [] ==> !IsSpace(r[|r| - 1]))
    decreases |s|
  {
    if |s| > 0 && IsSpace(s[|s| - 1]) {
      var t := s[..|s| - 1];
      StripRightSpec(t);
      var r := StripRight(t);
      assert t[..|r|] == s[..|r|];
      assert forall k :: 0 <= k < |t| - |r| ==> s[|r|..][k] == t[|r|..][k];
      assert s[|r|..][|s| - 1 - |r|] == s[|s| - 1];
    } else {
      assert s[..|s|] == s;
    }
  }

  /** `s.strip()`. */
  function Strip(s: string): string {
    StripRight(StripLeft(s))
  }

  /** What `strip()` promises: the result is `s` without a white-space border, and it
      starts and ends with a non-space character. */
  predicate IsStripOf(s: string, r: string) {
    exists i, j :: 0 <= i <= j <= |s| && r == s[i..j] && AllSpace(s[..i]) && AllSpace(s[j..])
      && (r != [] ==> !IsSpace(r[0]) && !IsSpace(r[|r| - 1]))
  }

  lemma StripMeetsSpec(s: string)
    ensures IsStripOf(s, Strip(s))
  {
    var l := StripLeft(s);
    var r := StripRight(l);
    StripLeftSpec(s);
    StripRightSpec(l);
    var i := |s| - |l|;
    var j := i + |r|;
    assert r == s[i..j];
    assert s[j..] == l[|r|..];
    assert r != [] ==> r[0] == l[0];
  }

  /** A stripped string is blank exactly when the original held only white space:
      this is what `if para.strip():` tests. */
  lemma StripEmptyIffAllSpace(s: string)
    ensures Strip(s) == [] <==> AllSpace(s)
  {
    var l := StripLeft(s);
    StripLeftSpec(s);
    StripRightSpec(l);
    if Strip(s) == [] {
      assert AllSpace(l) by { assert l[0..] == l; }
      assert l == [];
      assert s[..|s|] == s;
    }
  }

  /** Stripping twice changes nothing. */
  lemma StripIdempotent(s: string)
    ensures Strip(Strip(s)) == Strip(s)
  {
    var r := Strip(s);
    StripMeetsSpec(s);
    StripNoBorder(r);
  }

  lemma StripNoBorder(r: string)
    requires r != [] ==> !IsSpace(r[0]) && !IsSpace(r[|r| - 1])
    ensures Strip(r) == r
  {
    assert StripLeft(r) == r;
    assert StripRight(r) == r;
  }

  // ---------------------------------------------------------------------
  // str.split(sep) and sep.join(parts)

  predicate OccursAt(s: string, sep: string, i: int) {
    0 <= i && i + |sep| <= |s| && s[i..i + |sep|] == sep
  }

  /** `s.split(sep)` for a non-empty `sep`: cut at every occurrence, scanning left to
      right without overlap. */
  function Split(s: string, sep: string): (parts: seq<string>)
    requires |sep| > 0
    ensures |parts| >= 1
    decreases |s|
  {
    if |s| < |sep| then [s]
    else if s[..|sep|] == sep then [""] + Split(s[|sep|..], sep)
    else
      var rest := Split(s[1..], sep);
      [[s[0]] + rest[0]] + rest[1..]
  }

  /** `sep.join(parts)`. */
  function Join(parts: seq<string>, sep: string): (s: string)
    ensures |parts| == 1 ==> s == parts[0]
    decreases |parts|
  {
    if |parts| == 0 then ""
    else if |parts| == 1 then parts[0]
    else parts[0] + sep + Join(parts[1..], sep)
  }

  /** Joining the pieces of a split gives back the original text. */
  lemma {:induction false} JoinSplit(s: string, sep: string)
    requires |sep| > 0
    ensures Join(Split(s, sep), sep) == s
    decreases |s|
  {
    if |s| < |sep| {
    } else if s[..|sep|] == sep {
      var tail := s[|sep|..];
      var rest := Split(tail, sep);
      JoinSplit(tail, sep);
      var parts := [""] + rest;
      assert Split(s, sep) == parts;
      assert parts[1..] == rest;
      assert Join(parts, sep) == "" + sep + Join(rest, sep);
      assert s == sep + tail;
    } else {
      var tail := s[1..];
      var rest := Split(tail, sep);
      JoinSplit(tail, sep);
      var parts := [[s[0]] + rest[0]] + rest[1..];
      assert Split(s, sep) == parts;
      assert Join(parts, sep) == [s[0]] + Join(rest, sep) by {
        if |rest| == 1 {
          assert parts == [[s[0]] + rest[0]];
        } else {
          assert parts[1..] == rest[1..];
          assert Join(rest, sep) == rest[0] + sep + Join(rest[1..], sep);
        }
      }
      assert s == [s[0]] + tail;
    }
  }

  /** When the first occurrence of `sep` in `a + sep + b` is the one after `a`,
      the split yields `a` followed by the split of `b`. */
  lemma {:induction false} SplitAt(a: string, sep: string, b: string)
    requires |sep| > 0
    requires forall i :: 0 <= i < |a| ==> !OccursAt(a + sep + b, sep, i)
    ensures Split(a + sep + b, sep) == [a] + Split(b, sep)
    decreases |a|
  {
    var s := a + sep + b;
    if |a| == 0 {
      assert s[..|sep|] == sep;
      assert s[|sep|..] == b;
    } else {
      assert !OccursAt(s, sep, 0);
      assert s[..|sep|] == s[0..0 + |sep|];
      assert s[1..] == a[1..] + sep + b;
      forall i | 0 <= i < |a[1..]| ensures !OccursAt(a[1..] + sep + b, sep, i) {
        assert !OccursAt(s, sep, i + 1);
        assert s[i + 1..i + 1 + |sep|] == (a[1..] + sep + b)[i..i + |sep|];
      }
      SplitAt(a[1..], sep, b);
      assert [s[0]] + a[1..] == a;
    }
  }

  /** A text without any occurrence of `sep` splits into itself. */
  lemma {:induction false} SplitNone(s: string, sep: string)
    requires |sep| > 0
    requires forall i :: 0 <= i < |s| ==> !OccursAt(s, sep, i)
    ensures Split(s, sep) == [s]
    decreases |s|
  {
    if |s| >= |sep| {
      assert !OccursAt(s, sep, 0);
      assert s[..|sep|] == s[0..0 + |sep|];
      forall i | 0 <= i < |s[1..]| ensures !OccursAt(s[1..], sep, i) {
        assert !OccursAt(s, sep, i + 1);
        if i + |sep| <= |s[1..]| {
          assert s[i + 1..i + 1 + |sep|] == s[1..][i..i + |sep|];
        }
      }
      SplitNone(s[1..], sep);
      assert [s[0]] + s[1..] == s;
    }
  }

  /** Splitting a join on a one-character separator that no part contains gives the
      parts back; with no parts at all, `"".split(sep)` is `[""]`, hence `|parts| > 0`. */
  lemma {:induction false} SplitJoin(parts: seq<string>, c: char)
    requires |parts| > 0
    requires forall p, k :: p in parts && 0 <= k < |p| ==> p[k] != c
    ensures Split(Join(parts, [c]), [c]) == parts
    decreases |parts|
  {
    if |parts| == 1 {
      var s := parts[0];
      forall i | 0 <= i < |s| ensures !OccursAt(s, [c], i) {
        assert s[i..i + 1][0] == s[i];
      }
      SplitNone(s, [c]);
    } else {
      var a, b := parts[0], Join(parts[1..], [c]);
      forall i | 0 <= i < |a| ensures !OccursAt(a + [c] + b, [c], i) {
        assert (a + [c] + b)[i..i + 1][0] == a[i];
      }
      SplitAt(a, [c], b);
      SplitJoin(parts[1..], c);
      assert [a] + parts[1..] == parts;
    }
  }

  // ---------------------------------------------------------------------
  // Insertion-ordered dict with string keys

  /** The keys of an ordered dict, in insertion order. */
  function Keys<V>(d: seq<(string, V)>): (ks: seq<string>)
    ensures |ks| == |d| && forall i :: 0 <= i < |d| ==> ks[i] == d[i].0
  {
    seq(|d|, i requires 0 <= i < |d| => d[i].0)
  }

  predicate DistinctKeys<V>(d: seq<(string, V)>) {
    forall i, j :: 0 <= i < j < |d| ==> d[i].0 != d[j].0
  }

  /** `d.get(k)` on an ordered dict. */
  function Lookup<V>(d: seq<(string, V)>, k: string): (r: Option<V>)
    ensures r.Some? <==> k in Keys(d)
    decreases |d|
  {
    if |d| == 0 then None
    else if d[0].0 == k then Some(d[0].1)
    else Lookup(d[1..], k)
  }

  /** `d[k] = v`: overwrite in place when `k` is present, append otherwise. */
  function Put<V>(d: seq<(string, V)>, k: string, v: V): seq<(string, V)>
    decreases |d|
  {
    if |d| == 0 then [(k, v)]
    else if d[0].0 == k then [(k, v)] + d[1..]
    else [d[0]] + Put(d[1..], k, v)
  }

  /** Assigning a key that is not yet present appends it at the end. */
  lemma {:induction false} PutFresh<V>(d: seq<(string, V)>, k: string, v: V)
    requires k !in Keys(d)
    ensures Put(d, k, v) == d + [(k, v)]
    decreases |d|
  {
    if |d| > 0 {
      assert d[0].0 == Keys(d)[0];
      assert Keys(d[1..]) == Keys(d)[1..];
      PutFresh(d[1..], k, v);
      assert [d[0]] + (d[1..] + [(k, v)]) == d + [(k, v)];
    }
  }

  /** In a dict with distinct keys, `Lookup` finds the value stored at the key's position. */
  lemma {:induction false} LookupAt<V>(d: seq<(string, V)>, i: nat)
    requires DistinctKeys(d) && i < |d|
    ensures Lookup(d, d[i].0) == Some(d[i].1)
    decreases i
  {
    if i > 0 {
      assert d[1..][i - 1] == d[i];
      LookupAt(d[1..], i - 1);
    }
  }
}
