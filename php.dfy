/** The slice of PHP's value model and built-ins that the elFinder connector
    relies on: configuration arrays, `isset`, string conversion of the value
    spliced into a class name, and `basename`. */
module Php {
  import opened Wrappers

  /** One elFinder attribute rule. The pattern is a regular expression that
      only the file-manager runtime evaluates, so it stays an opaque string;
      a flag the rule does not set is `None` (no constraint). */
  datatype AttributeRule = AttributeRule(
    pattern: string,
    read: Option<bool>,
    write: Option<bool>,
    hidden: Option<bool>,
    locked: Option<bool>)

  /** A value stored in a configuration array. `List` is a PHP list (an array
      with keys 0..n-1), `Assoc` a string-keyed array, `Rule` an attribute
      rule, `ConnectorRef` the back-reference to the connector object. */
  datatype Value =
    | Null
    | Bool(b: bool)
    | Str(s: string)
    | List(items: seq<Value>)
    | Assoc(entries: map<string, Value>)
    | Rule(rule: AttributeRule)
    | ConnectorRef

  /** A configuration array keyed by option name. */
  type Config = map<string, Value>

  /** The runtime errors of PHP 8 that the connector can run into. */
  datatype Fault =
    | ArrayMergeTypeError          // array_merge() given a non-array argument
    | ObjectToStringError          // an object without __toString() used as a string
    | ClassNotFound(cls: string)   // `new $cls()` for a class that does not exist

  /** `isset($c[key])`: the key is present and its value is not null. */
  predicate IsSet(c: Config, key: string)
  {
    key in c && !c[key].Null?
  }

  /** The string PHP produces when `v` is concatenated with `.`; `None` when
      PHP throws instead. */
  function StringOf(v: Value): (r: Option<string>)
    ensures r.None? <==> v.ConnectorRef?
    ensures v.Str? ==> r == Some(v.s)
    ensures v.List? || v.Assoc? || v.Rule? ==> r == Some("Array")
  {
    match v
    case Null => Some("")
    case Bool(b) => Some(if b then "1" else "")
    case Str(s) => Some(s)
    case List(_) => Some("Array")
    case Assoc(_) => Some("Array")
    case Rule(_) => Some("Array")
    case ConnectorRef => None
  }

  /** A list of strings as configuration values. */
  function StrList(ss: seq<string>): (vs: seq<Value>)
    ensures |vs| == |ss|
    ensures forall i :: 0 <= i < |ss| ==> vs[i] == Str(ss[i])
  {
    seq(|ss|, i requires 0 <= i < |ss| => Str(ss[i]))
  }

  /** `path` with every trailing '/' removed. */
  function TrimTrailingSlashes(path: string): (q: string)
    ensures q <= path
    ensures q == [] || q[|q| - 1] != '/'
    ensures forall i :: |q| <= i < |path| ==> path[i] == '/'
    decreases |path|
  {
    if |path| > 0 && path[|path| - 1] == '/' then TrimTrailingSlashes(path[..|path| - 1]) else path
  }

  /** The characters of `q` after its last '/'. */
  function LastSegment(q: string): (b: string)
    ensures |b| <= |q| && b == q[|q| - |b|..]
    ensures forall i :: 0 <= i < |b| ==> b[i] != '/'
    ensures |b| == |q| || q[|q| - |b| - 1] == '/'
    decreases |q|
  {
    if |q| == 0 || q[|q| - 1] == '/' then [] else LastSegment(q[..|q| - 1]) + [q[|q| - 1]]
  }

  /** PHP's `basename($path)` with '/' as the only separator: trailing
      slashes are dropped and the last segment is returned. */
  function Basename(path: string): (b: string)
    ensures forall i :: 0 <= i < |b| ==> b[i] != '/'
    ensures var q := TrimTrailingSlashes(path);
      |b| <= |q| && b == q[|q| - |b|..] && (|b| == |q| || q[|q| - |b| - 1] == '/')
    ensures b == [] <==> forall i :: 0 <= i < |path| ==> path[i] == '/'
  {
    LastSegment(TrimTrailingSlashes(path))
  }

  /** `n` slashes. */
  function Slashes(n: nat): (s: string)
    ensures |s| == n && forall i :: 0 <= i < n ==> s[i] == '/'
  {
    seq(n, _ => '/')
  }

  lemma {:induction false} TrimSlashesAfterName(p: string, n: nat)
    requires p != [] && p[|p| - 1] != '/'
    ensures TrimTrailingSlashes(p + Slashes(n)) == p
    decreases n
  {
    if n > 0 {
      var s := p + Slashes(n);
      assert s[..|s| - 1] == p + Slashes(n - 1);
      TrimSlashesAfterName(p, n - 1);
    } else {
      assert p + Slashes(0) == p;
    }
  }

  lemma {:induction false} LastSegmentOfChild(dir: string, name: string)
    requires forall i :: 0 <= i < |name| ==> name[i] != '/'
    ensures LastSegment(dir + "/" + name) == name
    decreases |name|
  {
    var s := dir + "/" + name;
    if name == [] {
      assert s == dir + "/";
    } else {
      var name' := name[..|name| - 1];
      assert s[..|s| - 1] == dir + "/" + name';
      LastSegmentOfChild(dir, name');
      assert name == name' + [name[|name| - 1]];
    }
  }

  /** The basename of `dir/name`, followed by any number of slashes, is
      `name`, whatever the directory part. */
  lemma BasenameOfChild(dir: string, name: string, n: nat)
    requires name != [] && forall i :: 0 <= i < |name| ==> name[i] != '/'
    ensures Basename(dir + "/" + name + Slashes(n)) == name
  {
    TrimSlashesAfterName(dir + "/" + name, n);
    LastSegmentOfChild(dir, name);
  }
}
