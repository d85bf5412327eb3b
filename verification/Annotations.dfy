/** The Java annotations the documenter reads, written out as data in place
    of reflection, and the lookups it performs on them. */
module Annotations {
  import opened Wrappers

  /** One entry of `@ApiResponses`: a status code and the response class. */
  datatype ApiResponse = ApiResponse(code: int, response: string)

  datatype Annotation =
    | Path(path: string)
    | GET
    | PUT
    | POST
    | DELETE
    | PathParam(pathParam: string)
    | QueryParam(queryParam: string)
    | DefaultValue(defaultValue: string)
    | FormDataParam(formDataParam: string)
    | Pattern(regexp: string)
    | Consumes(consumed: seq<string>)
    | Produces(produced: seq<string>)
    | ApiOperation(summary: string, tags: seq<string>, notes: string)
    | ApiResponses(responses: seq<ApiResponse>)
      /** Any other annotation, known only by its type name. */
    | Other(typeName: string)

  /** The annotation type, which is what `getAnnotation(X.class)` and
      `isAnnotationPresent(X.class)` select on. */
  datatype Kind =
    | PathKind | GetKind | PutKind | PostKind | DeleteKind
    | PathParamKind | QueryParamKind | DefaultValueKind | FormDataParamKind | PatternKind
    | ConsumesKind | ProducesKind | ApiOperationKind | ApiResponsesKind
    | OtherKind

  function KindOf(a: Annotation): Kind {
    match a
    case Path(_) => PathKind
    case GET => GetKind
    case PUT => PutKind
    case POST => PostKind
    case DELETE => DeleteKind
    case PathParam(_) => PathParamKind
    case QueryParam(_) => QueryParamKind
    case DefaultValue(_) => DefaultValueKind
    case FormDataParam(_) => FormDataParamKind
    case Pattern(_) => PatternKind
    case Consumes(_) => ConsumesKind
    case Produces(_) => ProducesKind
    case ApiOperation(_, _, _) => ApiOperationKind
    case ApiResponses(_) => ApiResponsesKind
    case Other(_) => OtherKind
  }

  const PathName: string := "javax.ws.rs.Path"
  const GetName: string := "javax.ws.rs.GET"
  const PutName: string := "javax.ws.rs.PUT"
  const PostName: string := "javax.ws.rs.POST"
  const DeleteName: string := "javax.ws.rs.DELETE"

  /** The fully qualified name of the annotation type
      (`annotationType().getName()`). */
  function Name(a: Annotation): string {
    match a
    case Path(_) => PathName
    case GET => GetName
    case PUT => PutName
    case POST => PostName
    case DELETE => DeleteName
    case PathParam(_) => "javax.ws.rs.PathParam"
    case QueryParam(_) => "javax.ws.rs.QueryParam"
    case DefaultValue(_) => "javax.ws.rs.DefaultValue"
    case FormDataParam(_) => "org.glassfish.jersey.media.multipart.FormDataParam"
    case Pattern(_) => "javax.validation.constraints.Pattern"
    case Consumes(_) => "javax.ws.rs.Consumes"
    case Produces(_) => "javax.ws.rs.Produces"
    case ApiOperation(_, _, _) => "io.swagger.annotations.ApiOperation"
    case ApiResponses(_) => "io.swagger.annotations.ApiResponses"
    case Other(n) => n
  }

  /** The element carries an annotation of kind `k`. */
  ghost predicate Carries(anns: seq<Annotation>, k: Kind) {
    exists i :: 0 <= i < |anns| && KindOf(anns[i]) == k
  }

  /** The annotation of kind `k` on an element (`getAnnotation`), or None.
      Java allows at most one annotation of each of these types per element;
      should a list hold several, the first is taken. */
  function Lookup(anns: seq<Annotation>, k: Kind): (r: Option<Annotation>)
    ensures r.Some? <==> Carries(anns, k)
    ensures r.Some? ==> r.value in anns && KindOf(r.value) == k
    ensures r.Some? ==> exists i :: 0 <= i < |anns| && anns[i] == r.value
                                    && forall j :: 0 <= j < i ==> KindOf(anns[j]) != k
  {
    if |anns| == 0 then None
    else if KindOf(anns[0]) == k then Some(anns[0])
    else
      var r := Lookup(anns[1..], k);
      assert Carries(anns, k) ==> Carries(anns[1..], k) by {
        if Carries(anns, k) {
          var i :| 0 <= i < |anns| && KindOf(anns[i]) == k;
          assert anns[1..][i - 1] == anns[i];
        }
      }
      assert r.Some? ==> exists i :: 0 <= i < |anns| && anns[i] == r.value
                                     && forall j :: 0 <= j < i ==> KindOf(anns[j]) != k by {
        if r.Some? {
          var i :| 0 <= i < |anns[1..]| && anns[1..][i] == r.value
                   && forall j :: 0 <= j < i ==> KindOf(anns[1..][j]) != k;
          assert anns[i + 1] == r.value;
          assert forall j :: 0 <= j < i + 1 ==> KindOf(anns[j]) != k by {
            forall j | 0 <= j < i + 1 ensures KindOf(anns[j]) != k {
              if j > 0 { assert anns[j] == anns[1..][j - 1]; }
            }
          }
        }
      }
      r
  }

  /** `isAnnotationPresent(X.class)`. */
  function IsPresent(anns: seq<Annotation>, k: Kind): (b: bool)
    ensures b <==> Carries(anns, k)
  {
    Lookup(anns, k).Some?
  }

  /** The value of the element's `@Path`, if any. */
  function PathOf(anns: seq<Annotation>): (r: Option<string>)
    ensures r.Some? <==> Carries(anns, PathKind)
    ensures r.Some? ==> Path(r.value) in anns
  {
    match Lookup(anns, PathKind)
    case Some(Path(v)) => Some(v)
    case _ => None
  }

  /** The value of the element's `@Consumes`, if any. */
  function ConsumesOf(anns: seq<Annotation>): (r: Option<seq<string>>)
    ensures r.Some? <==> Carries(anns, ConsumesKind)
    ensures r.Some? ==> Consumes(r.value) in anns
  {
    match Lookup(anns, ConsumesKind)
    case Some(Consumes(v)) => Some(v)
    case _ => None
  }

  /** The value of the element's `@Produces`, if any. */
  function ProducesOf(anns: seq<Annotation>): (r: Option<seq<string>>)
    ensures r.Some? <==> Carries(anns, ProducesKind)
    ensures r.Some? ==> Produces(r.value) in anns
  {
    match Lookup(anns, ProducesKind)
    case Some(Produces(v)) => Some(v)
    case _ => None
  }
}
