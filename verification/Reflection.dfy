/** What reflection reports about the scanned code, supplied as data: the
    classes in discovery order, their public methods in `getMethods()` order,
    and each method's parameters with their annotations. */
module Reflection {
  import opened Annotations

  /** A method parameter: its type name (`getName()` of its class) and the
      annotations on it. */
  datatype JavaParameter = JavaParameter(typeName: string, annotations: seq<Annotation>)

  /** A public method. `declaringChain` holds `getAnnotations()` of the
      method's declaring class, then of each superclass up to the root, in
      that order; the declaring class may be a superclass of the class in
      which `getMethods()` found the method. */
  datatype JavaMethod = JavaMethod(
    name: string,
    returnType: string,
    annotations: seq<Annotation>,
    parameters: seq<JavaParameter>,
    declaringChain: seq<seq<Annotation>>)

  /** A discovered class: its name, its own annotations and its public
      methods. */
  datatype JavaClass = JavaClass(name: string, annotations: seq<Annotation>, methods: seq<JavaMethod>)
}
