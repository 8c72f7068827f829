/**
 * The request-URL parser of the image server (`parseUrl` in index.js).
 *
 * A URL is cut at its first `#`, then split on `?`: the text before the
 * first `?` is the path and the text between the first and the second `?`
 * is the query. The query is split on `&` into parameters; each parameter
 * is split on `=`, its first piece is the key and its second piece, when
 * non-empty, is decoded into the value. Parameters are recorded left to
 * right, so a later duplicate key overwrites an earlier one.
 */
module UrlParsing {

  /** Position of the first occurrence of `c` in `s`. */
  function IndexOf(s: string, c: char): (i: nat)
    requires c in s
    ensures i < |s| && s[i] == c && c !in s[..i]
  {
    if s[0] == c then 0
    else
      var j := IndexOf(s[1..], c);
      assert s[..j + 1] == [s[0]] + s[1..][..j];
      1 + j
  }

  /** The first occurrence of `c` is the only one with no `c` before it. */
  lemma IndexOfUnique(s: string, c: char, i: nat)
    requires i < |s| && s[i] == c && c !in s[..i]
    ensures IndexOf(s, c) == i
  {
    var j := IndexOf(s, c);
    forall k | 0 <= k < i ensures s[k] != c {
      assert s[..i][k] == s[k];
    }
    forall k | 0 <= k < j ensures s[k] != c {
      assert s[..j][k] == s[k];
    }
  }

  /** JavaScript's `parts.join(sep)` for a non-empty list of parts. */
  function Join(parts: seq<string>, sep: char): (s: string)
    requires |parts| >= 1
    ensures parts[0] <= s
    ensures |parts| > 1 ==> |parts[0]| < |s| && s[|parts[0]|] == sep
    ensures |parts| == 1 ==> s == parts[0]
  {
    if |parts| == 1 then parts[0]
    else parts[0] + [sep] + Join(parts[1..], sep)
  }

  /**
   * JavaScript's `s.split(sep)` for a one-character separator: the pieces
   * between consecutive separators, at least one piece even for "".
   */
  function Split(s: string, sep: char): (parts: seq<string>)
    ensures |parts| >= 1
    ensures forall i :: 0 <= i < |parts| ==> sep !in parts[i]
    ensures Join(parts, sep) == s
    decreases |s|
  {
    if sep !in s then [s]
    else
      var i := IndexOf(s, sep);
      var rest := Split(s[i + 1..], sep);
      var parts := [s[..i]] + rest;
      assert parts[1..] == rest;
      assert s == s[..i] + [sep] + s[i + 1..];
      parts
  }

  /** Splitting undoes joining parts that hold no separator. */
  lemma {:induction false} SplitJoin(parts: seq<string>, sep: char)
    requires |parts| >= 1
    requires forall i :: 0 <= i < |parts| ==> sep !in parts[i]
    ensures Split(Join(parts, sep), sep) == parts
  {
    var s := Join(parts, sep);
    if |parts| == 1 {
      assert s == parts[0];
    } else {
      var h := parts[0];
      assert s == h + [sep] + Join(parts[1..], sep);
      assert s[..|h|] == h;
      assert s[|h| + 1..] == Join(parts[1..], sep);
      IndexOfUnique(s, sep, |h|);
      SplitJoin(parts[1..], sep);
      assert [h] + parts[1..] == parts;
    }
  }

  /** Splitting at a first separator keeps the text before it as the first piece. */
  lemma SplitAt(a: string, sep: char, b: string)
    requires sep !in a
    ensures Split(a + [sep] + b, sep) == [a] + Split(b, sep)
  {
    var s := a + [sep] + b;
    assert s[..|a|] == a && s[|a| + 1..] == b;
    IndexOfUnique(s, sep, |a|);
  }

  /** The result of `parseUrl`: a path and a dictionary of query parameters. */
  datatype ParsedUrl = ParsedUrl(path: string, query: map<string, string>)

  /**
   * The path of a URL: the longest prefix holding neither `#` nor `?`.
   */
  function PathOf(url: string): (path: string)
    ensures path <= url
    ensures '#' !in path && '?' !in path
    ensures |path| < |url| ==> url[|path|] == '#' || url[|path|] == '?'
  {
    var beforeHash := Split(url, '#')[0];
    var path := Split(beforeHash, '?')[0];
    assert |path| < |beforeHash| ==> beforeHash[|path|] == '?';
    path
  }

  /** The text between the first and the second `?`, or "" when there is no `?`. */
  function QueryText(url: string): string {
    var parts := Split(Split(url, '#')[0], '?');
    if |parts| > 1 then parts[1] else ""
  }

  /** The key of a query parameter: its text before the first `=`. */
  function ParamKey(param: string): string {
    Split(param, '=')[0]
  }

  /**
   * The value of a query parameter: the decoded text between the first and
   * the second `=`, or "" when that text is empty or there is no `=`.
   */
  function ParamValue(param: string, decode: string -> string): string {
    var s := Split(param, '=');
    if |s| > 1 && s[1] != "" then decode(s[1]) else ""
  }

  /** Records the parameters from left to right into a dictionary. */
  function QueryOf(params: seq<string>, decode: string -> string): map<string, string>
    decreases |params|
  {
    if params == [] then map[]
    else
      var last := params[|params| - 1];
      QueryOf(params[..|params| - 1], decode)[ParamKey(last) := ParamValue(last, decode)]
  }

  /** What `parseUrl` returns, as a function of its input. */
  function ParseUrlSpec(url: string, decode: string -> string): ParsedUrl {
    ParsedUrl(PathOf(url), QueryOf(Split(QueryText(url), '&'), decode))
  }

  /** Recording one more parameter extends the dictionary by its key and value. */
  lemma QueryOfExtend(params: seq<string>, i: nat, decode: string -> string)
    requires i < |params|
    ensures QueryOf(params[..i + 1], decode)
            == QueryOf(params[..i], decode)[ParamKey(params[i]) := ParamValue(params[i], decode)]
  {
    var done := params[..i + 1];
    assert done[..i] == params[..i] && done[i] == params[i];
  }

  /**
   * `parseUrl`: takes the path and the query text, then fills the query
   * dictionary one parameter at a time (the `forEach`). A falsy URL reaches
   * here as "".
   */
  method ParseUrl(url: string, decode: string -> string) returns (r: ParsedUrl)
    ensures r == ParseUrlSpec(url, decode)
  {
    var path := PathOf(url);
    var params := Split(QueryText(url), '&');
    var query := map[];
    var i := 0;
    while i < |params|
      invariant 0 <= i <= |params|
      invariant query == QueryOf(params[..i], decode)
    {
      QueryOfExtend(params, i, decode);
      query := query[ParamKey(params[i]) := ParamValue(params[i], decode)];
      i := i + 1;
    }
    assert params[..|params|] == params;
    r := ParsedUrl(path, query);
  }

  /**
   * A key is in the query exactly when some parameter carries it.
   */
  lemma {:induction false} QueryKeys(params: seq<string>, decode: string -> string, key: string)
    ensures key in QueryOf(params, decode) <==>
            exists i :: 0 <= i < |params| && ParamKey(params[i]) == key
  {
    if params != [] {
      var init := params[..|params| - 1];
      QueryKeys(init, decode, key);
      if key in QueryOf(init, decode) {
        var i :| 0 <= i < |init| && ParamKey(init[i]) == key;
        assert ParamKey(params[i]) == key;
      }
      if exists i :: 0 <= i < |params| && ParamKey(params[i]) == key {
        var i :| 0 <= i < |params| && ParamKey(params[i]) == key;
        if i < |init| {
          assert ParamKey(init[i]) == key;
        }
      }
    }
  }

  /**
   * Later duplicates win: the value of a key is that of the LAST parameter
   * carrying it.
   */
  lemma {:induction false} QueryLastWins(params: seq<string>, decode: string -> string, j: nat)
    requires j < |params|
    requires forall i :: j < i < |params| ==> ParamKey(params[i]) != ParamKey(params[j])
    ensures ParamKey(params[j]) in QueryOf(params, decode)
    ensures QueryOf(params, decode)[ParamKey(params[j])] == ParamValue(params[j], decode)
  {
    var n := |params|;
    if j < n - 1 {
      var init := params[..n - 1];
      assert init[j] == params[j];
      forall i | j < i < |init|
        ensures ParamKey(init[i]) != ParamKey(init[j])
      {
        assert init[i] == params[i];
      }
      QueryLastWins(init, decode, j);
    }
  }

  /** The empty URL (what a falsy argument becomes) parses to path "". */
  lemma EmptyUrl(decode: string -> string)
    ensures ParseUrlSpec("", decode) == ParsedUrl("", map["" := ""])
  {
    assert Split("", '&') == [""];
    assert [""][..0] == [];
  }

  /** Text holding none of the characters the parser splits on. */
  predicate Plain(x: string) {
    '#' !in x && '?' !in x && '&' !in x && '=' !in x
  }

  /** A URL made of a plain path, `?` and a query parses into exactly those two. */
  lemma PathAndQuery(path: string, q: string)
    requires '#' !in path && '?' !in path && '#' !in q && '?' !in q
    ensures PathOf(path + "?" + q) == path && QueryText(path + "?" + q) == q
  {
    var req := path + "?" + q;
    assert '#' !in req;
    assert Split(req, '#') == [req];
    SplitAt(path, '?', q);
    assert Split(q, '?') == [q];
  }

  /** A parameter `k=v` has key `k` and value `decode(v)`. */
  lemma KeyValueParam(k: string, v: string, decode: string -> string)
    requires '=' !in k && '=' !in v && v != ""
    ensures ParamKey(k + "=" + v) == k && ParamValue(k + "=" + v, decode) == decode(v)
  {
    SplitAt(k, '=', v);
    assert Split(v, '=') == [v];
  }

  /** A query of two parameters splits into them. */
  lemma TwoParamsSplit(p0: string, p1: string)
    requires '&' !in p0 && '&' !in p1
    ensures Split(p0 + "&" + p1, '&') == [p0, p1]
  {
    SplitAt(p0, '&', p1);
    assert Split(p1, '&') == [p1];
  }

  /** Two parameters are recorded in order, the second overwriting a shared key. */
  lemma TwoParamsQuery(p0: string, p1: string, decode: string -> string)
    ensures QueryOf([p0, p1], decode)
            == map[ParamKey(p0) := ParamValue(p0, decode)][ParamKey(p1) := ParamValue(p1, decode)]
  {
    var params := [p0, p1];
    assert params[..1] == [p0];
    assert [p0][..0] == [];
    assert QueryOf([p0], decode) == map[ParamKey(p0) := ParamValue(p0, decode)];
  }

  /** `path?k0=v0&k1=v1` parses to `path` and the two decoded parameters. */
  lemma ParseTwoParams(path: string, k0: string, v0: string, k1: string, v1: string, decode: string -> string)
    requires '#' !in path && '?' !in path
    requires Plain(k0) && Plain(v0) && Plain(k1) && Plain(v1)
    requires v0 != "" && v1 != ""
    ensures ParseUrlSpec(path + "?" + k0 + "=" + v0 + "&" + k1 + "=" + v1, decode)
            == ParsedUrl(path, map[k0 := decode(v0)][k1 := decode(v1)])
  {
    var p0, p1 := k0 + "=" + v0, k1 + "=" + v1;
    var q := p0 + "&" + p1;
    assert path + "?" + k0 + "=" + v0 + "&" + k1 + "=" + v1 == path + "?" + q;
    PathAndQuery(path, q);
    TwoParamsSplit(p0, p1);
    TwoParamsQuery(p0, p1, decode);
    KeyValueParam(k0, v0, decode);
    KeyValueParam(k1, v1, decode);
  }

  /** A URL with neither `#` nor `?` is all path. */
  lemma PlainPath(d: string)
    requires '#' !in d && '?' !in d
    ensures PathOf(d) == d
  {
    assert Split(d, '#') == [d];
    assert Split(d, '?') == [d];
  }
}
