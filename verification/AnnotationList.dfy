/** The annotation names listed for an endpoint: every annotation type seen
    on the method's declaring class, its superclasses and the method itself,
    each once, minus the route and verb annotations. */
module AnnotationList {
  import opened Seqs
  import opened Annotations

  /** The type names of the annotations on one element. */
  function Names(anns: seq<Annotation>): seq<string> {
    Map(Name, anns)
  }

  /** The names of the declaring class chain, class by class. */
  function ChainNames(declaringChain: seq<seq<Annotation>>): seq<string> {
    Concat(Map(Names, declaringChain))
  }

  /** Every name in the order the collection visits them: the declaring class
      and each superclass in turn, then the method. */
  function VisitedNames(declaringChain: seq<seq<Annotation>>, methodAnns: seq<Annotation>): seq<string> {
    ChainNames(declaringChain) + Names(methodAnns)
  }

  /** The collected list: each visited name added unless already present. */
  function DiscoverAnnotations(declaringChain: seq<seq<Annotation>>, methodAnns: seq<Annotation>): (r: seq<string>)
    ensures NoDup(r)
    ensures forall n :: n in r <==> n in VisitedNames(declaringChain, methodAnns)
    ensures InFirstSeenOrder(r, VisitedNames(declaringChain, methodAnns))
  {
    DedupFirstSeen(VisitedNames(declaringChain, methodAnns));
    Dedup(VisitedNames(declaringChain, methodAnns))
  }

  /** The names removed after collection: `@Path` and the four verbs. */
  const ExcludedNames: seq<string> := [PathName, GetName, PostName, PutName, DeleteName]

  predicate IsExcludedName(n: string) {
    n in ExcludedNames
  }

  predicate Kept(n: string) {
    !IsExcludedName(n)
  }

  /** The annotation list of an endpoint: the collected names without the
      route and verb annotations. It holds every other visited name exactly
      once, ordered by first visit. */
  function EndpointAnnotations(declaringChain: seq<seq<Annotation>>, methodAnns: seq<Annotation>): (r: seq<string>)
    ensures NoDup(r)
    ensures forall n :: n in r <==> n in VisitedNames(declaringChain, methodAnns) && !IsExcludedName(n)
    ensures InFirstSeenOrder(r, VisitedNames(declaringChain, methodAnns))
  {
    var collected := DiscoverAnnotations(declaringChain, methodAnns);
    FilterNoDup(Kept, collected);
    DedupFirstSeen(VisitedNames(declaringChain, methodAnns));
    FilterFirstSeen(Kept, collected, VisitedNames(declaringChain, methodAnns));
    Filter(Kept, collected)
  }

  /** Before filtering, the names of the declaring class chain, deduplicated,
      form a prefix of the collected list; every name after that prefix is a
      method-level name not seen on the chain. */
  lemma ChainNamesPrefix(declaringChain: seq<seq<Annotation>>, methodAnns: seq<Annotation>)
    ensures var collected := DiscoverAnnotations(declaringChain, methodAnns);
            var c := Dedup(ChainNames(declaringChain));
            && c <= collected
            && forall k :: |c| <= k < |collected| ==>
                 collected[k] !in ChainNames(declaringChain) && collected[k] in Names(methodAnns)
  {
    var collected := DiscoverAnnotations(declaringChain, methodAnns);
    var c := Dedup(ChainNames(declaringChain));
    DedupPrefix(ChainNames(declaringChain), Names(methodAnns));
    forall k | |c| <= k < |collected|
      ensures collected[k] !in ChainNames(declaringChain) && collected[k] in Names(methodAnns)
    {
      assert collected[k] in VisitedNames(declaringChain, methodAnns);
      assert c == collected[..|c|];
      assert forall i :: 0 <= i < |c| ==> collected[i] != collected[k];
      assert collected[k] !in c;
    }
  }

  /** After filtering, a name seen on the declaring class chain never follows
      a name seen only on the method. */
  lemma {:induction false} ChainNamesFirst(declaringChain: seq<seq<Annotation>>, methodAnns: seq<Annotation>)
    ensures var r := EndpointAnnotations(declaringChain, methodAnns);
            forall i, j :: 0 <= i < j < |r| && r[j] in ChainNames(declaringChain) ==> r[i] in ChainNames(declaringChain)
  {
    var r := EndpointAnnotations(declaringChain, methodAnns);
    var c, m := ChainNames(declaringChain), Names(methodAnns);
    var all := VisitedNames(declaringChain, methodAnns);
    forall i, j | 0 <= i < j < |r| && r[j] in c
      ensures r[i] in c
    {
      FirstIndexInPrefix(c, m, r[j]);
      if r[i] !in c {
        FirstIndexAfterPrefix(c, m, r[i]);
      }
    }
  }

  /** No route or verb annotation name survives, wherever it was seen. */
  lemma RouteAndVerbNamesRemoved(declaringChain: seq<seq<Annotation>>, methodAnns: seq<Annotation>)
    ensures var r := EndpointAnnotations(declaringChain, methodAnns);
            PathName !in r && GetName !in r && PutName !in r && PostName !in r && DeleteName !in r
  {
  }
}
