/** The documentation and content-type information of an endpoint, read from
    the Swagger `@ApiOperation` and `@ApiResponses` annotations and the JAX-RS
    `@Consumes` and `@Produces` annotations. */
module SwaggerDocs {
  import opened Wrappers
  import opened Seqs
  import opened Annotations

  /** Response class names of the `@ApiResponses` entries, split by code. */
  datatype ResponseLists = ResponseLists(success: seq<string>, failure: seq<string>)

  datatype DocInfo = DocInfo(
    description: Option<string>,
    tags: seq<string>,
    notes: Option<string>,
    consumes: seq<string>,
    produces: seq<string>,
    responses: ResponseLists)

  /** The one status code that counts as success. */
  const SuccessCode: int := 200

  predicate IsSuccess(e: ApiResponse) {
    e.code == SuccessCode
  }

  predicate IsFailure(e: ApiResponse) {
    e.code != SuccessCode
  }

  function ResponseType(e: ApiResponse): string {
    e.response
  }

  /** The entries scanned in order: a success entry's class name is always
      added to the success list, a failure entry's only if the failure list
      does not hold it yet. */
  function SplitResponses(es: seq<ApiResponse>): (r: ResponseLists)
    ensures r.success == Map(ResponseType, Filter(IsSuccess, es))
    ensures r.failure == Dedup(Map(ResponseType, Filter(IsFailure, es)))
  {
    if |es| == 0 then ResponseLists([], [])
    else
      var p, e := es[..|es| - 1], es[|es| - 1];
      var acc := SplitResponses(p);
      assert es == p + [e];
      FilterSnoc(IsSuccess, p, e);
      FilterSnoc(IsFailure, p, e);
      MapSnoc(ResponseType, Filter(IsSuccess, p), e);
      MapSnoc(ResponseType, Filter(IsFailure, p), e);
      DedupSnoc(Map(ResponseType, Filter(IsFailure, p)), e.response);
      if e.code == SuccessCode then acc.(success := acc.success + [e.response])
      else if e.response !in acc.failure then acc.(failure := acc.failure + [e.response])
      else acc
  }

  /** The success list keeps every success entry, duplicates included, in
      input order, and nothing else. */
  lemma SuccessResponsesKept(es: seq<ApiResponse>)
    ensures var r := SplitResponses(es);
            && |r.success| == |Filter(IsSuccess, es)|
            && forall n :: n in r.success <==> exists e :: e in es && IsSuccess(e) && ResponseType(e) == n
  {
    MapFilterMembership(IsSuccess, ResponseType, es);
  }

  /** The failure list holds the class name of every failure entry exactly
      once, in the order of first occurrence, and nothing else. */
  lemma FailureResponsesDeduplicated(es: seq<ApiResponse>)
    ensures var r := SplitResponses(es);
            && NoDup(r.failure)
            && InFirstSeenOrder(r.failure, Map(ResponseType, Filter(IsFailure, es)))
            && forall n :: n in r.failure <==> exists e :: e in es && IsFailure(e) && ResponseType(e) == n
  {
    DedupFirstSeen(Map(ResponseType, Filter(IsFailure, es)));
    MapFilterMembership(IsFailure, ResponseType, es);
  }

  /** `@Consumes` of the method if it has one, else of the class, else no
      content types: a full override, never a merge. */
  function ConsumesFor(methodAnns: seq<Annotation>, classAnns: seq<Annotation>): (r: seq<string>)
    ensures Carries(methodAnns, ConsumesKind) ==> Consumes(r) in methodAnns
    ensures !Carries(methodAnns, ConsumesKind) && Carries(classAnns, ConsumesKind) ==> Consumes(r) in classAnns
    ensures !Carries(methodAnns, ConsumesKind) && !Carries(classAnns, ConsumesKind) ==> r == []
  {
    match ConsumesOf(methodAnns)
    case Some(v) => v
    case None => ConsumesOf(classAnns).GetOr([])
  }

  /** `@Produces` of the method if it has one, else of the class, else no
      content types: a full override, never a merge. */
  function ProducesFor(methodAnns: seq<Annotation>, classAnns: seq<Annotation>): (r: seq<string>)
    ensures Carries(methodAnns, ProducesKind) ==> Produces(r) in methodAnns
    ensures !Carries(methodAnns, ProducesKind) && Carries(classAnns, ProducesKind) ==> Produces(r) in classAnns
    ensures !Carries(methodAnns, ProducesKind) && !Carries(classAnns, ProducesKind) ==> r == []
  {
    match ProducesOf(methodAnns)
    case Some(v) => v
    case None => ProducesOf(classAnns).GetOr([])
  }

  /** The split of the method's `@ApiResponses`; both lists are empty when it
      has none. */
  function ResponsesFor(methodAnns: seq<Annotation>): (r: ResponseLists)
    ensures NoDup(r.failure)
    ensures !Carries(methodAnns, ApiResponsesKind) ==> r == ResponseLists([], [])
    ensures Carries(methodAnns, ApiResponsesKind) ==>
              exists es :: ApiResponses(es) in methodAnns && r == SplitResponses(es)
  {
    match Lookup(methodAnns, ApiResponsesKind)
    case Some(ApiResponses(es)) => SplitResponses(es)
    case _ => ResponseLists([], [])
  }

  /** The documentation fields of an endpoint. `@ApiOperation` supplies the
      description, tags and notes, which are otherwise absent (tags empty). */
  function DiscoverDocInfo(methodAnns: seq<Annotation>, classAnns: seq<Annotation>): (r: DocInfo)
    ensures r.description.Some? <==> Carries(methodAnns, ApiOperationKind)
    ensures r.description.None? ==> r.tags == [] && r.notes == None
    ensures r.description.Some? ==>
              r.notes.Some? && ApiOperation(r.description.value, r.tags, r.notes.value) in methodAnns
    ensures r.consumes == ConsumesFor(methodAnns, classAnns)
    ensures r.produces == ProducesFor(methodAnns, classAnns)
    ensures r.responses == ResponsesFor(methodAnns)
  {
    var consumes := ConsumesFor(methodAnns, classAnns);
    var produces := ProducesFor(methodAnns, classAnns);
    var responses := ResponsesFor(methodAnns);
    var op := Lookup(methodAnns, ApiOperationKind);
    if op.Some? && op.value.ApiOperation? then
      DocInfo(Some(op.value.summary), op.value.tags, Some(op.value.notes), consumes, produces, responses)
    else
      DocInfo(None, [], None, consumes, produces, responses)
  }

  /** A method-level `@Consumes` or `@Produces` makes the class-level one
      irrelevant: the class annotations can be replaced by any others. */
  lemma MethodContentTypesOverride(methodAnns: seq<Annotation>, classAnns: seq<Annotation>, otherClassAnns: seq<Annotation>)
    ensures Carries(methodAnns, ConsumesKind) ==>
              ConsumesFor(methodAnns, classAnns) == ConsumesFor(methodAnns, otherClassAnns)
    ensures Carries(methodAnns, ProducesKind) ==>
              ProducesFor(methodAnns, classAnns) == ProducesFor(methodAnns, otherClassAnns)
  {
  }
}
