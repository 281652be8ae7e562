/**
 * Decoded JSON values as the Python code sees them (dicts keep their key
 * order), and the dynamic operations the adapters and handlers apply to them:
 * `.get` with a default, chains of `.get`, `[]`, `in`, iteration, truth
 * testing and `str()`. A Python exception is an `Err(Fault)`.
 */
module Json {
  import opened Wrappers
  import opened PyText

  datatype Json =
    | JNull
    | JBool(b: bool)
    | JInt(i: int)
    | JStr(s: string)
    | JArr(items: seq<Json>)
    | JObj(fields: seq<(string, Json)>)

  /** The Python exceptions the modelled code can raise. */
  datatype Fault = AttributeError | TypeError | KeyError | ValueError | IndexError | RuntimeError

  /** The empty dict `{}`, the default of every intermediate `.get`. */
  const Empty: Json := JObj([])

  /** A dict has the key k. */
  predicate HasKey(fields: seq<(string, Json)>, k: string)
  {
    exists i :: 0 <= i < |fields| && fields[i].0 == k
  }

  /** `d[k]` on a dict, None for a missing key (the first entry wins). */
  function Lookup(fields: seq<(string, Json)>, k: string): (r: Option<Json>)
    ensures r.Some? <==> HasKey(fields, k)
    ensures r.Some? ==> (k, r.value) in fields
  {
    if |fields| == 0 then None
    else if fields[0].0 == k then Some(fields[0].1)
    else
      var r := Lookup(fields[1..], k);
      assert HasKey(fields, k) ==> fields[0].0 == k || HasKey(fields[1..], k) by {
        if HasKey(fields, k) {
          var i :| 0 <= i < |fields| && fields[i].0 == k;
          if i > 0 { assert fields[1..][i - 1].0 == k; }
        }
      }
      r
  }

  /**
   * `v.get(k, d)`: only a dict has `.get`; an absent key gives d, a present
   * key gives its value even when that value is null.
   */
  function Get(v: Json, k: string, d: Json): (r: Result<Json, Fault>)
    ensures r.Err? <==> !v.JObj?
    ensures r.Err? ==> r.error == AttributeError
    ensures v.JObj? && !HasKey(v.fields, k) ==> r == Ok(d)
    ensures v.JObj? && HasKey(v.fields, k) ==> r.Ok? && (k, r.value) in v.fields
  {
    match v
    case JObj(fs) =>
      (match Lookup(fs, k)
       case Some(x) => Ok(x)
       case None => Ok(d))
    case _ => Err(AttributeError)
  }

  /** `v.get(p0, {}).get(p1, {})...get(pn, d)` */
  function Chain(v: Json, path: seq<string>, d: Json): Result<Json, Fault>
    requires |path| >= 1
    decreases |path|
  {
    if |path| == 1 then Get(v, path[0], d)
    else
      match Get(v, path[0], Empty)
      case Err(e) => Err(e)
      case Ok(w) => Chain(w, path[1..], d)
  }

  /** Strict navigation: every key of the path present, every step a dict. */
  function Follow(v: Json, path: seq<string>): Option<Json>
    decreases |path|
  {
    if path == [] then Some(v)
    else
      match v
      case JObj(fs) =>
        (match Lookup(fs, path[0])
         case Some(w) => Follow(w, path[1..])
         case None => None)
      case _ => None
  }

  /** A chain over `{}` yields its default. */
  lemma {:induction false} ChainOverEmpty(path: seq<string>, d: Json)
    requires |path| >= 1
    ensures Chain(Empty, path, d) == Ok(d)
  {
    if |path| > 1 {
      ChainOverEmpty(path[1..], d);
    }
  }

  /** When every key is present the chain yields the value found there. */
  lemma {:induction false} ChainPresent(v: Json, path: seq<string>, d: Json)
    requires |path| >= 1 && Follow(v, path).Some?
    ensures Chain(v, path, d) == Ok(Follow(v, path).value)
  {
    if |path| > 1 {
      var w := Lookup(v.fields, path[0]).value;
      ChainPresent(w, path[1..], d);
    }
  }

  /**
   * When the first j keys lead to a dict that lacks key j, the chain yields
   * its default: an absent key is never a fault.
   */
  lemma {:induction false} ChainAbsent(v: Json, path: seq<string>, d: Json, j: nat)
    requires j < |path|
    requires Follow(v, path[..j]).Some? && Follow(v, path[..j]).value.JObj?
    requires !HasKey(Follow(v, path[..j]).value.fields, path[j])
    ensures Chain(v, path, d) == Ok(d)
  {
    if j == 0 {
      assert path[..0] == [];
      if |path| > 1 {
        ChainOverEmpty(path[1..], d);
      }
    } else {
      var w := Lookup(v.fields, path[0]).value;
      assert path[1..][..j - 1] == path[..j][1..];
      ChainAbsent(w, path[1..], d, j - 1);
    }
  }

  /**
   * When the first j keys lead to a value that is not a dict (a present
   * null, a string, a list, ...) before the last key, the chain raises
   * AttributeError: `.get` on it faults.
   */
  lemma {:induction false} ChainThroughNonDict(v: Json, path: seq<string>, d: Json, j: nat)
    requires j < |path|
    requires Follow(v, path[..j]).Some? && !Follow(v, path[..j]).value.JObj?
    ensures Chain(v, path, d) == Err(AttributeError)
  {
    if j == 0 {
      assert path[..0] == [];
    } else {
      var w := Lookup(v.fields, path[0]).value;
      assert path[1..][..j - 1] == path[..j][1..];
      ChainThroughNonDict(w, path[1..], d, j - 1);
    }
  }

  /** Python truth value of a JSON value. */
  predicate Truthy(v: Json)
  {
    match v
    case JNull => false
    case JBool(b) => b
    case JInt(i) => i != 0
    case JStr(s) => s != ""
    case JArr(a) => a != []
    case JObj(fs) => fs != []
  }

  /**
   * `item in container` for a string item: list membership by equality, key
   * membership for a dict, substring for a string; None, numbers and
   * booleans are not containers.
   */
  function Contains(container: Json, item: string): (r: Result<bool, Fault>)
    ensures r.Err? <==> !(container.JArr? || container.JObj? || container.JStr?)
    ensures container.JArr? ==> r == Ok(JStr(item) in container.items)
    ensures container.JObj? ==> r == Ok(HasKey(container.fields, item))
  {
    match container
    case JArr(a) => Ok(JStr(item) in a)
    case JObj(fs) => Ok(HasKey(fs, item))
    case JStr(s) => Ok(IsSubstring(item, s))
    case _ => Err(TypeError)
  }

  /** `v[k]` with a string key. */
  function Subscript(v: Json, k: string): (r: Result<Json, Fault>)
    ensures r.Ok? <==> v.JObj? && HasKey(v.fields, k)
    ensures r.Ok? ==> (k, r.value) in v.fields
  {
    match v
    case JObj(fs) =>
      (match Lookup(fs, k)
       case Some(x) => Ok(x)
       case None => Err(KeyError))
    case _ => Err(TypeError)
  }

  function Keys(fs: seq<(string, Json)>): (ks: seq<Json>)
    ensures |ks| == |fs|
  {
    if fs == [] then [] else [JStr(fs[0].0)] + Keys(fs[1..])
  }

  function Chars(s: string): (cs: seq<Json>)
    ensures |cs| == |s|
    ensures forall i :: 0 <= i < |s| ==> cs[i] == JStr([s[i]])
  {
    if s == [] then [] else [JStr([s[0]])] + Chars(s[1..])
  }

  /**
   * What `for x in v` iterates over: list items, dict keys in order,
   * one-character strings; other values are not iterable.
   */
  function Elements(v: Json): (r: Result<seq<Json>, Fault>)
    ensures r.Err? <==> !(v.JArr? || v.JObj? || v.JStr?)
    ensures v.JArr? ==> r == Ok(v.items)
    ensures v.JObj? ==> r.Ok? && |r.value| == |v.fields|
    ensures v.JStr? ==> r.Ok? && |r.value| == |v.s|
  {
    match v
    case JArr(a) => Ok(a)
    case JObj(fs) => Ok(Keys(fs))
    case JStr(s) => Ok(Chars(s))
    case _ => Err(TypeError)
  }

  function JoinWith(parts: seq<string>, sep: string): string
  {
    if parts == [] then "" else if |parts| == 1 then parts[0] else parts[0] + sep + JoinWith(parts[1..], sep)
  }

  /** `repr(v)` (string escapes are not reproduced). */
  function Repr(v: Json): string
  {
    match v
    case JStr(s) => "'" + s + "'"
    case JArr(a) => "[" + JoinWith(seq(|a|, i requires 0 <= i < |a| => Repr(a[i])), ", ") + "]"
    case JObj(fs) =>
      "{" + JoinWith(seq(|fs|, i requires 0 <= i < |fs| =>
                      assert fs[i] in fs; "'" + fs[i].0 + "': " + Repr(fs[i].1)), ", ") + "}"
    case JNull => "None"
    case JBool(b) => if b then "True" else "False"
    case JInt(i) => IntToString(i)
  }

  /** `str(v)`, as an f-string renders a value. */
  function Str(v: Json): (r: string)
    ensures v.JStr? ==> r == v.s
    ensures v.JNull? ==> r == "None"
  {
    match v
    case JStr(s) => s
    case _ => Repr(v)
  }
}
