/** Endpoint assembly and the discovery driver: for every class carrying
    `@Path`, one record per public method carrying a verb annotation. */
module Discovery {
  import opened Wrappers
  import opened Seqs
  import opened Annotations
  import opened Reflection
  import opened Records
  import opened Paths
  import opened Parameters
  import opened SwaggerDocs
  import opened AnnotationList

  /** The annotation kind of each verb. */
  function VerbKind(v: Verb): Kind {
    match v
    case GET => GetKind
    case POST => PostKind
    case PUT => PutKind
    case DELETE => DeleteKind
  }

  /** Precedence of the verb annotations, in the order the driver checks them. */
  function Rank(v: Verb): nat {
    match v
    case GET => 0
    case PUT => 1
    case POST => 2
    case DELETE => 3
  }

  /** The verb of a method: the first of GET, PUT, POST, DELETE that it
      carries, or None when it carries none. */
  function SelectVerb(anns: seq<Annotation>): (r: Option<Verb>)
    ensures r.None? <==> forall v: Verb :: !Carries(anns, VerbKind(v))
    ensures r.Some? ==> Carries(anns, VerbKind(r.value))
    ensures r.Some? ==> forall v: Verb :: Rank(v) < Rank(r.value) ==> !Carries(anns, VerbKind(v))
  {
    if IsPresent(anns, GetKind) then
      assert Carries(anns, VerbKind(Verb.GET));
      Some(Verb.GET)
    else if IsPresent(anns, PutKind) then
      assert Carries(anns, VerbKind(Verb.PUT));
      Some(Verb.PUT)
    else if IsPresent(anns, PostKind) then
      assert Carries(anns, VerbKind(Verb.POST));
      Some(Verb.POST)
    else if IsPresent(anns, DeleteKind) then
      assert Carries(anns, VerbKind(Verb.DELETE));
      Some(Verb.DELETE)
    else
      NoVerbCarried(anns);
      None
  }

  lemma NoVerbCarried(anns: seq<Annotation>)
    requires !Carries(anns, GetKind) && !Carries(anns, PutKind)
    requires !Carries(anns, PostKind) && !Carries(anns, DeleteKind)
    ensures forall v: Verb :: !Carries(anns, VerbKind(v))
  {
    forall v: Verb
      ensures !Carries(anns, VerbKind(v))
    {
      match v
      case GET =>
      case PUT =>
      case POST =>
      case DELETE =>
    }
  }

  /** The invariant every assembled record keeps: each parameter list holds
      only parameters of its kind and none of a context type, the annotation
      list has no repeats and no route or verb annotation, the failure list
      has no repeats, and without `@ApiOperation` the tags and notes are
      empty too. */
  ghost predicate WellFormed(e: RestEndpoint) {
    && (forall p :: p in e.pathParameters ==> p.parameterType == PATH && !IsContextType(p.javaType))
    && (forall p :: p in e.queryParameters ==> p.parameterType == QUERY && !IsContextType(p.javaType))
    && (forall p :: p in e.payloadParameters ==> p.parameterType == PAYLOAD && !IsContextType(p.javaType))
    && NoDup(e.annotations)
    && (forall n :: n in e.annotations ==> !IsExcludedName(n))
    && NoDup(e.failureResponseTypes)
    && (e.description.None? ==> e.tags == [] && e.notes.None?)
  }

  /** The record for `m` found in class `c` with verb `verb`, under the
      class's base path `classUri`. */
  function CreateEndpoint(m: JavaMethod, verb: Verb, c: JavaClass, classUri: string): (r: RestEndpoint)
    ensures r.verb == verb && r.javaClass == c.name && r.javaMethodName == m.name
    ensures r.javaMethodReturnType == m.returnType
    ensures classUri <= r.uri
  {
    var ps := DiscoverParameters(m.parameters);
    var docs := DiscoverDocInfo(m.annotations, c.annotations);
    RestEndpoint(
      EndpointUri(classUri, m.annotations),
      verb,
      c.name,
      m.name,
      m.returnType,
      ps.path,
      ps.query,
      ps.payload,
      docs.description,
      docs.tags,
      docs.notes,
      docs.consumes,
      docs.produces,
      docs.responses.success,
      docs.responses.failure,
      EndpointAnnotations(m.declaringChain, m.annotations))
  }

  /** Every assembled record keeps the record invariant, and its three
      parameter lists together hold one entry per non-context parameter. */
  lemma CreateEndpointWellFormed(m: JavaMethod, verb: Verb, c: JavaClass, classUri: string)
    ensures var r := CreateEndpoint(m, verb, c, classUri);
            && WellFormed(r)
            && |r.pathParameters| + |r.queryParameters| + |r.payloadParameters| == |Filter(NotContext, m.parameters)|
  {
    ParametersPartition(m.parameters);
  }

  /** What each computed field of an assembled record holds: the URI is the
      base path followed by the method's `@Path` value; the parameter lists
      are the classified non-context parameters of each kind, in order; the
      description, tags, notes and content types are those of the method's
      documentation; the response lists are the split of its
      `@ApiResponses`; the annotation list is the filtered collected names. */
  lemma CreateEndpointFields(m: JavaMethod, verb: Verb, c: JavaClass, classUri: string)
    ensures var r := CreateEndpoint(m, verb, c, classUri);
            var docs := DiscoverDocInfo(m.annotations, c.annotations);
            && r.uri[|classUri|..] == PathOf(m.annotations).GetOr("")
            && r.pathParameters == Filter(IsPath, Classified(m.parameters))
            && r.queryParameters == Filter(IsQuery, Classified(m.parameters))
            && r.payloadParameters == Filter(IsPayload, Classified(m.parameters))
            && (r.description.Some? <==> Carries(m.annotations, ApiOperationKind))
            && r.description == docs.description && r.tags == docs.tags && r.notes == docs.notes
            && r.consumes == ConsumesFor(m.annotations, c.annotations)
            && r.produces == ProducesFor(m.annotations, c.annotations)
            && r.successResponseTypes == ResponsesFor(m.annotations).success
            && r.failureResponseTypes == ResponsesFor(m.annotations).failure
            && r.annotations == EndpointAnnotations(m.declaringChain, m.annotations)
            && (forall n :: n in r.annotations <==> n in VisitedNames(m.declaringChain, m.annotations) && !IsExcludedName(n))
  {
  }

  /** The method yields a record. */
  predicate Routable(m: JavaMethod) {
    SelectVerb(m.annotations).Some?
  }

  /** The records a scan of the methods `ms` adds: `build` makes the record
      of each method carrying a verb from the method and its verb. */
  function ScanMethods(ms: seq<JavaMethod>, build: (JavaMethod, Verb) -> RestEndpoint): seq<RestEndpoint> {
    if |ms| == 0 then []
    else
      var m := ms[|ms| - 1];
      ScanMethods(ms[..|ms| - 1], build) +
        match SelectVerb(m.annotations)
        case Some(v) => [build(m, v)]
        case None => []
  }

  /** The scan adds one record per method carrying a verb, in method order,
      and none for the other methods. */
  lemma {:induction false} ScanOneRecordPerRoutableMethod(ms: seq<JavaMethod>, build: (JavaMethod, Verb) -> RestEndpoint)
    ensures var r, rs := ScanMethods(ms, build), Filter(Routable, ms);
            && |r| == |rs|
            && forall k :: 0 <= k < |rs| ==> Routable(rs[k]) && r[k] == build(rs[k], SelectVerb(rs[k].annotations).value)
  {
    if |ms| > 0 {
      var p, m := ms[..|ms| - 1], ms[|ms| - 1];
      assert ms == p + [m];
      ScanOneRecordPerRoutableMethod(p, build);
      FilterSnoc(Routable, p, m);
      var rp, rsp := ScanMethods(p, build), Filter(Routable, p);
      var r, rs := ScanMethods(ms, build), Filter(Routable, ms);
      if Routable(m) {
        assert r == rp + [build(m, SelectVerb(m.annotations).value)];
        assert rs == rsp + [m];
      } else {
        assert r == rp;
      }
    }
  }

  /** The records of the methods `ms` of class `c`, in method order. */
  function MethodEndpoints(c: JavaClass, classUri: string, ms: seq<JavaMethod>): seq<RestEndpoint> {
    ScanMethods(ms, (m: JavaMethod, v: Verb) => CreateEndpoint(m, v, c, classUri))
  }

  /** The records of one class: none unless it carries `@Path`. */
  function ClassEndpoints(c: JavaClass): (r: seq<RestEndpoint>)
    ensures !Carries(c.annotations, PathKind) ==> r == []
  {
    if IsPresent(c.annotations, PathKind) then MethodEndpoints(c, ResolveBasePath(c.annotations), c.methods)
    else []
  }

  /** The records a scan of the classes adds, `f` giving the records of one
      class. */
  function ScanClasses(classes: seq<JavaClass>, f: JavaClass -> seq<RestEndpoint>): seq<RestEndpoint> {
    if |classes| == 0 then []
    else ScanClasses(classes[..|classes| - 1], f) + f(classes[|classes| - 1])
  }

  /** Scanning two runs of classes gives the records of the first run followed
      by those of the second. */
  lemma {:induction false} ScanClassesAppend(a: seq<JavaClass>, b: seq<JavaClass>, f: JavaClass -> seq<RestEndpoint>)
    ensures ScanClasses(a + b, f) == ScanClasses(a, f) + ScanClasses(b, f)
  {
    if |b| == 0 {
      assert a + b == a;
    } else {
      var b', c := b[..|b| - 1], b[|b| - 1];
      assert (a + b)[..|a + b| - 1] == a + b';
      ScanClassesAppend(a, b', f);
    }
  }

  /** Every record of the scan is a record of one of the classes. */
  lemma {:induction false} ScanClassesMembership(classes: seq<JavaClass>, f: JavaClass -> seq<RestEndpoint>)
    ensures forall e :: e in ScanClasses(classes, f) ==> exists i :: 0 <= i < |classes| && e in f(classes[i])
  {
    if |classes| > 0 {
      var p := classes[..|classes| - 1];
      ScanClassesMembership(p, f);
      assert forall i :: 0 <= i < |p| ==> p[i] == classes[i];
    }
  }

  /** The records of all classes, in class order. */
  function FindEndpoints(classes: seq<JavaClass>): seq<RestEndpoint> {
    ScanClasses(classes, ClassEndpoints)
  }

  lemma MethodEndpointsWellFormed(c: JavaClass, classUri: string, ms: seq<JavaMethod>)
    ensures forall e :: e in MethodEndpoints(c, classUri, ms) ==> WellFormed(e) && classUri <= e.uri
  {
    var build := (m: JavaMethod, v: Verb) => CreateEndpoint(m, v, c, classUri);
    ScanOneRecordPerRoutableMethod(ms, build);
    var r, rs := ScanMethods(ms, build), Filter(Routable, ms);
    forall e | e in r
      ensures WellFormed(e) && classUri <= e.uri
    {
      var k :| 0 <= k < |r| && r[k] == e;
      var v := SelectVerb(rs[k].annotations).value;
      assert e == CreateEndpoint(rs[k], v, c, classUri);
      CreateEndpointWellFormed(rs[k], v, c, classUri);
    }
  }

  /** Every record of one class keeps the record invariant, and its URI
      starts with the base URI followed by a slash. */
  lemma ClassRecordsWellFormed(c: JavaClass)
    ensures forall e :: e in ClassEndpoints(c) ==> WellFormed(e) && BaseUri + "/" <= e.uri
  {
    if IsPresent(c.annotations, PathKind) {
      var base := ResolveBasePath(c.annotations);
      MethodEndpointsWellFormed(c, base, c.methods);
      forall e | e in ClassEndpoints(c)
        ensures BaseUri + "/" <= e.uri
      {
        PrefixTransitive(BaseUri + "/", base, e.uri);
      }
    }
  }

  lemma PrefixTransitive(a: string, b: string, c: string)
    requires a <= b && b <= c
    ensures a <= c
  {
    assert c[..|a|] == b[..|a|];
  }

  /** Every discovered record keeps the record invariant, and its URI starts
      with the base URI followed by a slash. */
  lemma AllRecordsWellFormed(classes: seq<JavaClass>)
    ensures forall e :: e in FindEndpoints(classes) ==> WellFormed(e) && BaseUri + "/" <= e.uri
  {
    ScanClassesMembership(classes, ClassEndpoints);
    forall e | e in FindEndpoints(classes)
      ensures WellFormed(e) && BaseUri + "/" <= e.uri
    {
      var i :| 0 <= i < |classes| && e in ClassEndpoints(classes[i]);
      ClassRecordsWellFormed(classes[i]);
    }
  }

  /** Records follow class order: the records of two runs of classes are the
      records of the first followed by those of the second. */
  lemma FindEndpointsAppend(a: seq<JavaClass>, b: seq<JavaClass>)
    ensures FindEndpoints(a + b) == FindEndpoints(a) + FindEndpoints(b)
  {
    ScanClassesAppend(a, b, ClassEndpoints);
  }

  /** A class without `@Path` contributes nothing, wherever it stands. */
  lemma ClassWithoutPathIgnored(a: seq<JavaClass>, c: JavaClass, b: seq<JavaClass>)
    requires !Carries(c.annotations, PathKind)
    ensures FindEndpoints(a + [c] + b) == FindEndpoints(a + b)
  {
    FindEndpointsAppend(a + [c], b);
    FindEndpointsAppend(a, b);
    assert (a + [c])[..|a|] == a;
    assert FindEndpoints(a + [c]) == FindEndpoints(a) + ClassEndpoints(c);
    assert FindEndpoints(a + [c]) == FindEndpoints(a);
  }

  /** Each method carrying a verb yields exactly one record, with the verb
      chosen by precedence, and the records follow method order; a method
      without a verb yields none. */
  lemma OneRecordPerRoutableMethod(c: JavaClass, classUri: string, ms: seq<JavaMethod>)
    ensures var r, rs := MethodEndpoints(c, classUri, ms), Filter(Routable, ms);
            && |r| == |rs|
            && forall k :: 0 <= k < |rs| ==>
                 Routable(rs[k]) && r[k] == CreateEndpoint(rs[k], SelectVerb(rs[k].annotations).value, c, classUri)
  {
    ScanOneRecordPerRoutableMethod(ms, (m: JavaMethod, v: Verb) => CreateEndpoint(m, v, c, classUri));
  }
}
