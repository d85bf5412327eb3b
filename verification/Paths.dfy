/** The URI of an endpoint: the class's base path under the fixed base URI,
    followed literally by the method's own `@Path` value. */
module Paths {
  import opened Wrappers
  import opened Annotations

  /** `BASE_URI`, the prefix of every endpoint URI. */
  const BaseUri: string := "Server/api"

  predicate StartsWithSlash(s: string) {
    |s| > 0 && s[0] == '/'
  }

  predicate EndsWithSlash(s: string) {
    |s| > 0 && s[|s| - 1] == '/'
  }

  /** `path` made to start and end with `/`, adding a slash at either end only
      where one is missing. */
  function Slashed(path: string): (r: string)
    ensures StartsWithSlash(r) && EndsWithSlash(r)
    ensures StartsWithSlash(path) ==> path <= r
    ensures !StartsWithSlash(path) ==> "/" + path <= r
    ensures |r| == |path| + (if StartsWithSlash(path) then 0 else 1)
                         + (if EndsWithSlash(path) || path == "" then 0 else 1)
    ensures r == path <==> StartsWithSlash(path) && EndsWithSlash(path)
  {
    var lead := if StartsWithSlash(path) then path else "/" + path;
    if EndsWithSlash(lead) then lead else lead + "/"
  }

  /** The base path of a class: its own `@Path` value (the empty string when
      it has none), slashed at both ends, after `BASE_URI`. Only the class's
      own annotation is read; no enclosing or parent class contributes. */
  function ResolveBasePath(classAnns: seq<Annotation>): (r: string)
    ensures BaseUri + "/" <= r && EndsWithSlash(r)
    ensures r == BaseUri + Slashed(PathOf(classAnns).GetOr(""))
    ensures PathOf(classAnns).GetOr("") == "" ==> r == "Server/api/"
    ensures PathOf(classAnns).Some? ==>
              var v := PathOf(classAnns).value;
              (StartsWithSlash(v) && EndsWithSlash(v) <==> r == BaseUri + v)
  {
    var path := match PathOf(classAnns) case Some(v) => v case None => "";
    var s := Slashed(path);
    assert (BaseUri + s)[..|BaseUri| + 1] == BaseUri + "/";
    BaseUri + s
  }

  /** The endpoint URI: the class's base path, then the method's `@Path`
      value if it has one, joined by plain concatenation. */
  function EndpointUri(classUri: string, methodAnns: seq<Annotation>): (r: string)
    ensures classUri <= r
    ensures r == classUri <==> PathOf(methodAnns).GetOr("") == ""
    ensures PathOf(methodAnns).Some? ==> r[|classUri|..] == PathOf(methodAnns).value
    ensures |r| == |classUri| + |PathOf(methodAnns).GetOr("")|
  {
    match PathOf(methodAnns)
    case Some(v) => classUri + v
    case None => classUri
  }

  /** Slashing is idempotent: a base path is never re-slashed. */
  lemma SlashedIdempotent(path: string)
    ensures Slashed(Slashed(path)) == Slashed(path)
  {
  }

  /** The method path is appended without collapsing slashes: a method
      `@Path` that starts with `/` leaves `//` where it meets the base path. */
  lemma DoubledSlashKept(classAnns: seq<Annotation>, methodAnns: seq<Annotation>)
    requires PathOf(methodAnns).Some? && StartsWithSlash(PathOf(methodAnns).value)
    ensures var base := ResolveBasePath(classAnns);
            var r := EndpointUri(base, methodAnns);
            r[|base| - 1..|base| + 1] == "//"
  {
    var base := ResolveBasePath(classAnns);
    var r := EndpointUri(base, methodAnns);
    assert r[|base| - 1] == base[|base| - 1];
    assert r[|base|] == r[|base|..][0];
  }

  lemma BasePathOfApi()
    ensures ResolveBasePath([Path("api")]) == "Server/api/api/"
  {
    var classAnns := [Path("api")];
    assert PathOf(classAnns) == Some("api") by {
      assert Path(PathOf(classAnns).value) in classAnns;
    }
    assert Slashed("api") == "/api/";
  }

  lemma WidgetsPath()
    ensures PathOf([GET, Path("/widgets")]) == Some("/widgets")
  {
    var methodAnns := [GET, Path("/widgets")];
    assert KindOf(methodAnns[1]) == PathKind;
    assert Path(PathOf(methodAnns).value) in methodAnns;
  }

  /** A class `@Path("api")` and a method `@Path("/widgets")` give the URI
      `Server/api/api//widgets`. */
  lemma UriKeepsDoubledSlash()
    ensures EndpointUri(ResolveBasePath([Path("api")]), [GET, Path("/widgets")]) == "Server/api/api//widgets"
  {
    BasePathOfApi();
    WidgetsPath();
    var base := ResolveBasePath([Path("api")]);
    assert EndpointUri(base, [GET, Path("/widgets")]) == base + "/widgets";
  }
}
