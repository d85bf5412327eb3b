/** Classification of a handler's parameters into path, query and payload
    parameters. */
module Parameters {
  import opened Wrappers
  import opened Seqs
  import opened Annotations
  import opened Reflection
  import opened Records

  /** Parameters of these types give access to the request context and are
      not documented. */
  const ContextTypes: seq<string> :=
    ["javax.ws.rs.core.Request", "javax.servlet.http.HttpServletResponse", "javax.servlet.http.HttpServletRequest"]

  predicate IsContextType(t: string) {
    t in ContextTypes
  }

  predicate IsContext(p: JavaParameter) {
    IsContextType(p.typeName)
  }

  predicate NotContext(p: JavaParameter) {
    !IsContext(p)
  }

  /** An annotation that decides the binding kind (`@PathParam`, `@QueryParam`). */
  predicate SetsKind(a: Annotation) {
    a.PathParam? || a.QueryParam?
  }

  /** An annotation that names the parameter (the two above and `@FormDataParam`). */
  predicate SetsName(a: Annotation) {
    a.PathParam? || a.QueryParam? || a.FormDataParam?
  }

  function KindSetBy(a: Annotation): ParameterType
    requires SetsKind(a)
  {
    if a.PathParam? then PATH else QUERY
  }

  function NameSetBy(a: Annotation): string
    requires SetsName(a)
  {
    match a
    case PathParam(n) => n
    case QueryParam(n) => n
    case FormDataParam(n) => n
  }

  /** `anns[i]` satisfies `f` and no later annotation does. */
  ghost predicate IsLastWhere(anns: seq<Annotation>, i: int, f: Annotation -> bool) {
    0 <= i < |anns| && f(anns[i]) && forall j :: i < j < |anns| ==> !f(anns[j])
  }

  /** No annotation satisfies `f`. */
  ghost predicate NoneWhere(anns: seq<Annotation>, f: Annotation -> bool) {
    forall i :: 0 <= i < |anns| ==> !f(anns[i])
  }

  /** The effect of one parameter annotation on the parameter record built so
      far; annotations of any other type leave it unchanged. */
  function Apply(e: EndpointParameter, a: Annotation): EndpointParameter {
    match a
    case PathParam(n) => e.(parameterType := PATH, name := Some(n))
    case QueryParam(n) => e.(parameterType := QUERY, name := Some(n))
    case DefaultValue(v) => e.(defaultValue := Some(v))
    case FormDataParam(n) => e.(name := Some(n))
    case Pattern(r) => e.(pattern := Some(r))
    case _ => e
  }

  /** The record for a parameter of type `typeName` whose annotations are
      `anns`, read in order, each overwriting the fields it sets. */
  function Classify(typeName: string, anns: seq<Annotation>): (e: EndpointParameter)
    ensures e.javaType == typeName
  {
    if |anns| == 0 then EndpointParameter(PAYLOAD, typeName, None, None, None)
    else Apply(Classify(typeName, anns[..|anns| - 1]), anns[|anns| - 1])
  }

  /** If the last annotation does not satisfy `f`, the annotations before it
      hold the last one that does. */
  lemma LastWhereInPrefix(anns: seq<Annotation>, f: Annotation -> bool)
    requires |anns| > 0 && !f(anns[|anns| - 1])
    ensures NoneWhere(anns, f) <==> NoneWhere(anns[..|anns| - 1], f)
    ensures forall i :: IsLastWhere(anns, i, f) <==> IsLastWhere(anns[..|anns| - 1], i, f)
  {
    var p := anns[..|anns| - 1];
    assert forall i :: 0 <= i < |p| ==> p[i] == anns[i];
  }

  /** The kind is decided by the last `@PathParam` or `@QueryParam`, and is
      PAYLOAD when there is none. */
  lemma {:induction false} ClassifyKind(t: string, anns: seq<Annotation>)
    ensures NoneWhere(anns, SetsKind) ==> Classify(t, anns).parameterType == PAYLOAD
    ensures forall i :: IsLastWhere(anns, i, SetsKind) ==> Classify(t, anns).parameterType == KindSetBy(anns[i])
  {
    if |anns| > 0 {
      ClassifyKind(t, anns[..|anns| - 1]);
      if !SetsKind(anns[|anns| - 1]) {
        LastWhereInPrefix(anns, SetsKind);
      }
    }
  }

  /** The name is set by the last `@PathParam`, `@QueryParam` or
      `@FormDataParam`, and is absent when there is none. */
  lemma {:induction false} ClassifyName(t: string, anns: seq<Annotation>)
    ensures NoneWhere(anns, SetsName) ==> Classify(t, anns).name == None
    ensures forall i :: IsLastWhere(anns, i, SetsName) ==> Classify(t, anns).name == Some(NameSetBy(anns[i]))
  {
    if |anns| > 0 {
      ClassifyName(t, anns[..|anns| - 1]);
      if !SetsName(anns[|anns| - 1]) {
        LastWhereInPrefix(anns, SetsName);
      }
    }
  }

  /** The default value is the last `@DefaultValue`'s, whatever the kind. */
  lemma {:induction false} ClassifyDefaultValue(t: string, anns: seq<Annotation>)
    ensures NoneWhere(anns, IsDefaultValue) ==> Classify(t, anns).defaultValue == None
    ensures forall i :: IsLastWhere(anns, i, IsDefaultValue) ==>
                          Classify(t, anns).defaultValue == Some(anns[i].defaultValue)
  {
    if |anns| > 0 {
      ClassifyDefaultValue(t, anns[..|anns| - 1]);
      if !IsDefaultValue(anns[|anns| - 1]) {
        LastWhereInPrefix(anns, IsDefaultValue);
      }
    }
  }

  /** The pattern is the last `@Pattern`'s regular expression, whatever the
      kind. */
  lemma {:induction false} ClassifyPattern(t: string, anns: seq<Annotation>)
    ensures NoneWhere(anns, IsPattern) ==> Classify(t, anns).pattern == None
    ensures forall i :: IsLastWhere(anns, i, IsPattern) ==> Classify(t, anns).pattern == Some(anns[i].regexp)
  {
    if |anns| > 0 {
      ClassifyPattern(t, anns[..|anns| - 1]);
      if !IsPattern(anns[|anns| - 1]) {
        LastWhereInPrefix(anns, IsPattern);
      }
    }
  }

  predicate IsDefaultValue(a: Annotation) {
    a.DefaultValue?
  }

  predicate IsPattern(a: Annotation) {
    a.Pattern?
  }

  function ClassifyParameter(p: JavaParameter): EndpointParameter {
    Classify(p.typeName, p.annotations)
  }

  /** The non-context parameters, classified, in declaration order. */
  function Classified(ps: seq<JavaParameter>): seq<EndpointParameter> {
    Map(ClassifyParameter, Filter(NotContext, ps))
  }

  predicate IsPath(e: EndpointParameter) {
    e.parameterType == PATH
  }

  predicate IsQuery(e: EndpointParameter) {
    e.parameterType == QUERY
  }

  predicate IsPayload(e: EndpointParameter) {
    e.parameterType == PAYLOAD
  }

  datatype ParameterLists = ParameterLists(
    path: seq<EndpointParameter>,
    query: seq<EndpointParameter>,
    payload: seq<EndpointParameter>)

  /** The three lists built by scanning the parameters in order, skipping
      context objects and adding each other parameter to the list of its
      kind. Each list is the classified non-context parameters of its kind,
      in declaration order. */
  function DiscoverParameters(ps: seq<JavaParameter>): (r: ParameterLists)
    ensures r.path == Filter(IsPath, Classified(ps))
    ensures r.query == Filter(IsQuery, Classified(ps))
    ensures r.payload == Filter(IsPayload, Classified(ps))
  {
    if |ps| == 0 then ParameterLists([], [], [])
    else
      var p, last := ps[..|ps| - 1], ps[|ps| - 1];
      var acc := DiscoverParameters(p);
      assert ps == p + [last];
      ClassifiedSnoc(p, last);
      if IsContext(last) then acc
      else
        var e := ClassifyParameter(last);
        FilterSnoc(IsPath, Classified(p), e);
        FilterSnoc(IsQuery, Classified(p), e);
        FilterSnoc(IsPayload, Classified(p), e);
        match e.parameterType
        case PATH => acc.(path := acc.path + [e])
        case QUERY => acc.(query := acc.query + [e])
        case PAYLOAD => acc.(payload := acc.payload + [e])
  }

  lemma ClassifiedSnoc(ps: seq<JavaParameter>, x: JavaParameter)
    ensures NotContext(x) ==> Classified(ps + [x]) == Classified(ps) + [ClassifyParameter(x)]
    ensures IsContext(x) ==> Classified(ps + [x]) == Classified(ps)
  {
    FilterSnoc(NotContext, ps, x);
    if NotContext(x) {
      MapSnoc(ClassifyParameter, Filter(NotContext, ps), x);
    }
  }

  /** Every classified parameter is in exactly one of the three lists. */
  lemma {:induction false} KindsPartition(es: seq<EndpointParameter>)
    ensures multiset(Filter(IsPath, es)) + multiset(Filter(IsQuery, es)) + multiset(Filter(IsPayload, es))
            == multiset(es)
  {
    if |es| > 0 {
      var p, e := es[..|es| - 1], es[|es| - 1];
      assert es == p + [e];
      KindsPartition(p);
      FilterSnoc(IsPath, p, e);
      FilterSnoc(IsQuery, p, e);
      FilterSnoc(IsPayload, p, e);
      match e.parameterType
      case PATH => assert Filter(IsPath, es) == Filter(IsPath, p) + [e];
      case QUERY => assert Filter(IsQuery, es) == Filter(IsQuery, p) + [e];
      case PAYLOAD => assert Filter(IsPayload, es) == Filter(IsPayload, p) + [e];
    }
  }

  /** Classification keeps the declared type, so no classified parameter
      has a context type. */
  lemma ClassifiedNotContext(ps: seq<JavaParameter>)
    ensures forall e :: e in Classified(ps) ==> !IsContextType(e.javaType)
  {
    var ncs := Filter(NotContext, ps);
    forall e | e in Classified(ps)
      ensures !IsContextType(e.javaType)
    {
      var i :| 0 <= i < |ncs| && e == Classified(ps)[i];
      assert ncs[i] in ncs;
    }
  }

  /** Context parameters appear in no list; every other parameter appears in
      exactly one, so the three lengths add up to the number of non-context
      parameters; and each list holds only parameters of its kind. */
  lemma ParametersPartition(ps: seq<JavaParameter>)
    ensures var r := DiscoverParameters(ps);
            && |r.path| + |r.query| + |r.payload| == |Filter(NotContext, ps)|
            && multiset(r.path) + multiset(r.query) + multiset(r.payload) == multiset(Classified(ps))
            && (forall e :: e in r.path ==> e.parameterType == PATH)
            && (forall e :: e in r.query ==> e.parameterType == QUERY)
            && (forall e :: e in r.payload ==> e.parameterType == PAYLOAD)
            && (forall e :: e in r.path + r.query + r.payload ==> !IsContextType(e.javaType))
  {
    KindsPartition(Classified(ps));
    ClassifiedNotContext(ps);
    var r := DiscoverParameters(ps);
    assert |multiset(r.path)| + |multiset(r.query)| + |multiset(r.payload)| == |multiset(Classified(ps))|;
  }

  /** A parameter without binding annotations is an unnamed payload
      parameter; `@FormDataParam` names it without changing its kind. */
  lemma FormDataNamesPayload(t: string, n: string, v: string)
    ensures Classify(t, [FormDataParam(n)]) == EndpointParameter(PAYLOAD, t, None, Some(n), None)
    ensures Classify(t, [PathParam(n), FormDataParam(v)]).parameterType == PATH
    ensures Classify(t, [PathParam(n), FormDataParam(v)]).name == Some(v)
  {
    assert IsLastWhere([PathParam(n), FormDataParam(v)], 0, SetsKind);
    assert IsLastWhere([PathParam(n), FormDataParam(v)], 1, SetsName);
    assert IsLastWhere([FormDataParam(n)], 0, SetsName);
  }
}
