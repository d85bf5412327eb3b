# Endpoint extraction of the Jersey API documenter

This project models, in Dafny, the part of `RESTEndpointsDocumenter` that
turns annotated JAX-RS resource classes into `RestEndpoint` records. The
model covers:

- which classes and methods become endpoints, and with which HTTP verb;
- the endpoint URI built from `BASE_URI`, the class `@Path` and the method
  `@Path`;
- the path, query and payload parameters read from `@PathParam`,
  `@QueryParam`, `@DefaultValue`, `@FormDataParam` and `@Pattern`;
- the Swagger documentation (`@ApiOperation`, `@ApiResponses`) and the
  content types (`@Consumes`, `@Produces`, with the class as fallback);
- the list of annotation type names attached to each endpoint, minus the
  route and verb annotations.

Reflection is replaced by data. A class is its name, its annotations and its
public methods. A method is its name, its return type name, its annotations,
its parameters and the annotations of its declaring class and superclasses.
Java class names are plain strings. Every Java loop that appends to a list is
written as recursion on the prefix of its input, so one unfolding is one loop
iteration. Each such function is related to an independent reference
definition (`Filter`, `Map`, `Dedup`, "last annotation that sets the
field") by its contract or by a lemma.

Modules, in dependency order:

- `Wrappers`: `Option`.
- `Seqs`: `Filter`, `Map`, `Concat`, `Dedup`, `FirstIndex` and their lemmas.
- `Annotations`: the annotation datatype, its type names and the
  `getAnnotation` lookup.
- `Reflection`: the scanned classes, methods and parameters.
- `Records`: `RestEndpoint` and `EndpointParameter`.
- `Paths`: the base path and the endpoint URI.
- `Parameters`: parameter classification.
- `SwaggerDocs`: documentation, content types and responses.
- `AnnotationList`: the collected annotation names and the exclusion filter.
- `Discovery`: verb selection, record assembly and the driver.

The method path is appended without normalisation: class `@Path("api")` and
method `@Path("/widgets")` give `Server/api/api//widgets`
(`Paths.UriKeepsDoubledSlash`, `Paths.DoubledSlashKept`). Success response
types are not deduplicated; failure response types are
(`SwaggerDocs.SuccessResponsesKept`).

## Model

| member | source | states |
|---|---|---|
| Annotations.Lookup | com.utility/RESTEndpointsDocumenter.java:337 | `getAnnotation`: a result exactly when an annotation of that type is present; the result is on the element, has that type, and is the first of its type |
| Annotations.IsPresent | com.utility/RESTEndpointsDocumenter.java:305-317 | `isAnnotationPresent` holds exactly when an annotation of the type is carried |
| Annotations.PathOf | com.utility/RESTEndpointsDocumenter.java:499-502 | a `@Path` value exactly when the element carries `@Path`, and that value is the carried annotation's |
| Annotations.ConsumesOf | com.utility/RESTEndpointsDocumenter.java:398-400 | a `@Consumes` value exactly when the element carries one, and it is the carried annotation's |
| Annotations.ProducesOf | com.utility/RESTEndpointsDocumenter.java:406-408 | a `@Produces` value exactly when the element carries one, and it is the carried annotation's |
| Paths.Slashed | com.utility/RESTEndpointsDocumenter.java:517-523 | the path gains a leading and a trailing slash only where missing (the empty path becomes `/`), so its length grows by exactly the number of missing slashes; it is unchanged exactly when it already has both; its content is kept as a prefix |
| Paths.SlashedIdempotent | com.utility/RESTEndpointsDocumenter.java:517-523 | slashing twice equals slashing once |
| Paths.ResolveBasePath | com.utility/RESTEndpointsDocumenter.java:496-527 | the base path is `BASE_URI` followed by the class's `@Path` value (empty when absent) slashed at both ends; so it starts with `Server/api/`, ends with `/`, is `Server/api/` for a missing or empty value, and is `BASE_URI` plus the value exactly when the value already starts and ends with `/` |
| Paths.EndpointUri | com.utility/RESTEndpointsDocumenter.java:337-343 | the URI extends the base path; what follows it is exactly the method's `@Path` value; it equals the base path exactly when there is no (or an empty) method path |
| Paths.DoubledSlashKept | com.utility/RESTEndpointsDocumenter.java:337-343 | a method path starting with `/` leaves `//` where it meets the base path, since the base path always ends with `/` |
| Paths.UriKeepsDoubledSlash | com.utility/RESTEndpointsDocumenter.java:496-527 | class `@Path("api")` and method `@Path("/widgets")` give `Server/api/api//widgets` |
| Parameters.Classify | com.utility/RESTEndpointsDocumenter.java:447-448 | the record keeps the parameter's declared type name |
| Parameters.ClassifyKind | com.utility/RESTEndpointsDocumenter.java:451-461 | the kind is that of the last `@PathParam`/`@QueryParam`, PAYLOAD when there is none |
| Parameters.ClassifyName | com.utility/RESTEndpointsDocumenter.java:451-470 | the name is the value of the last `@PathParam`, `@QueryParam` or `@FormDataParam`, absent when there is none |
| Parameters.ClassifyDefaultValue | com.utility/RESTEndpointsDocumenter.java:462-465 | the default value is the last `@DefaultValue`'s, absent when there is none |
| Parameters.ClassifyPattern | com.utility/RESTEndpointsDocumenter.java:471-474 | the pattern is the last `@Pattern`'s regular expression, absent when there is none |
| Parameters.FormDataNamesPayload | com.utility/RESTEndpointsDocumenter.java:467-470 | `@FormDataParam` names a parameter without changing its kind; alone it leaves a PAYLOAD parameter |
| Parameters.DiscoverParameters | com.utility/RESTEndpointsDocumenter.java:433-489 | each list is the classified non-context parameters of its kind, in declaration order |
| Parameters.KindsPartition | com.utility/RESTEndpointsDocumenter.java:477-487 | every classified parameter goes to exactly one of the three lists (multiset sum) |
| Parameters.ParametersPartition | com.utility/RESTEndpointsDocumenter.java:438-488 | context parameters are in no list, every other parameter is in exactly one, each list holds only its kind |
| SwaggerDocs.SplitResponses | com.utility/RESTEndpointsDocumenter.java:414-426 | the success list is the class names of the code-200 entries in order; the failure list is the class names of the other entries, deduplicated |
| SwaggerDocs.SuccessResponsesKept | com.utility/RESTEndpointsDocumenter.java:418-420 | one success entry per code-200 response, duplicates kept, and no other name |
| SwaggerDocs.FailureResponsesDeduplicated | com.utility/RESTEndpointsDocumenter.java:421-424 | each failure class name exactly once, in order of first occurrence, and no other name |
| SwaggerDocs.ConsumesFor | com.utility/RESTEndpointsDocumenter.java:398-404 | the method's `@Consumes`, else the class's, else no content types |
| SwaggerDocs.ProducesFor | com.utility/RESTEndpointsDocumenter.java:406-412 | the method's `@Produces`, else the class's, else no content types |
| SwaggerDocs.MethodContentTypesOverride | com.utility/RESTEndpointsDocumenter.java:398-412 | a method-level `@Consumes`/`@Produces` makes the class annotations irrelevant |
| SwaggerDocs.ResponsesFor | com.utility/RESTEndpointsDocumenter.java:414-415 | both lists empty without `@ApiResponses`, otherwise the split of its entries; the failure list has no repeats |
| SwaggerDocs.DiscoverDocInfo | com.utility/RESTEndpointsDocumenter.java:389-427 | a description exactly when the method carries `@ApiOperation`, with tags and notes from that annotation; otherwise no description, no tags, no notes |
| AnnotationList.DiscoverAnnotations | com.utility/RESTEndpointsDocumenter.java:370-387 | every type name seen on the declaring class chain or the method, each exactly once, in order of first visit (chain before method) |
| AnnotationList.EndpointAnnotations | com.utility/RESTEndpointsDocumenter.java:349-363 | exactly the seen names other than `@Path` and the four verbs, each once, in order of first visit |
| AnnotationList.ChainNamesPrefix | com.utility/RESTEndpointsDocumenter.java:371-385 | the class-chain names come first as a block; everything after is a method-only name |
| AnnotationList.ChainNamesFirst | com.utility/RESTEndpointsDocumenter.java:370-387 | after filtering, a class-chain name never follows a method-only name |
| AnnotationList.RouteAndVerbNamesRemoved | com.utility/RESTEndpointsDocumenter.java:352-363 | no `@Path`, `@GET`, `@PUT`, `@POST` or `@DELETE` name remains |
| Discovery.SelectVerb | com.utility/RESTEndpointsDocumenter.java:305-317 | no verb exactly when the method carries none; otherwise a carried verb with no carried verb before it in the order GET, PUT, POST, DELETE |
| Discovery.CreateEndpoint | com.utility/RESTEndpointsDocumenter.java:329-335 | the verb, class name, method name and return type are those given; the URI extends the base path |
| Discovery.CreateEndpointFields | com.utility/RESTEndpointsDocumenter.java:329-368 | every computed field of the record holds its discovery step's result: URI suffix, the three parameter lists, description, tags, notes, content types, success and failure response types, and the filtered annotation names |
| Discovery.CreateEndpointWellFormed | com.utility/RESTEndpointsDocumenter.java:329-368 | every record keeps the record invariant; its parameter lists hold one entry per non-context parameter |
| Discovery.ScanOneRecordPerRoutableMethod | com.utility/RESTEndpointsDocumenter.java:304-318 | the method scan adds one record per method carrying a verb, in method order, and none for the others |
| Discovery.OneRecordPerRoutableMethod | com.utility/RESTEndpointsDocumenter.java:303-318 | the records of a class are, in order, the assembled records of its methods that carry a verb, each with its selected verb |
| Discovery.ClassEndpoints | com.utility/RESTEndpointsDocumenter.java:300-301 | a class without `@Path` yields no record |
| Discovery.ClassWithoutPathIgnored | com.utility/RESTEndpointsDocumenter.java:299-320 | removing a class without `@Path` from the input does not change the output |
| Discovery.ScanClassesAppend | com.utility/RESTEndpointsDocumenter.java:299-320 | the class scan over two runs of classes adds the records of the first run, then those of the second |
| Discovery.ScanClassesMembership | com.utility/RESTEndpointsDocumenter.java:299-320 | every record the class scan adds comes from one of the scanned classes |
| Discovery.FindEndpointsAppend | com.utility/RESTEndpointsDocumenter.java:299-321 | records follow class order: the output for two runs of classes is the concatenation of their outputs |
| Discovery.MethodEndpointsWellFormed | com.utility/RESTEndpointsDocumenter.java:303-318 | every record of a class keeps the record invariant and extends the class's base path |
| Discovery.AllRecordsWellFormed | com.utility/RESTEndpointsDocumenter.java:296-322 | every discovered record keeps the record invariant and its URI starts with `Server/api/` |

## Left out

- Class discovery (`getClasses`): scanning the class path and the jar for a
  package is I/O. The classes arrive as a sequence in discovery order.
- The order of `getMethods()`, which Java leaves unspecified, is taken as
  the given order of `JavaClass.methods`.
- Reflection itself: annotations, parameter types and the declaring class
  chain are supplied as data. `Class` identity for the context parameter
  types is compared by fully qualified name.
- The HTML and JavaScript output (`outputEndpointsTable`,
  `checkHtmlAssetFiles`), `main` and the console trace of each record: they
  are output only and do not change the records.
- The verb-to-row-class mapping of the HTML table and the browser script
  `RowGroupingWithFixedColumn.js`: presentation only.
- The never-assigned record fields `requestHeaders`, `responseHeaders` and
  `payloadValidations`.
- The disabled walk up `@Parent` annotations in the base path: the code
  reads only the class's own `@Path`, and so does the model.
- Annotations.Lookup: Java forbids two annotations of these types on one
  element; should the list hold two, the model takes the first.
- Parameters.Classify: its own contract states only the declared type; the
  kind, name, default value and pattern are stated by `ClassifyKind`,
  `ClassifyName`, `ClassifyDefaultValue` and `ClassifyPattern`.
- Discovery.ClassEndpoints: its contract states only the class without
  `@Path`; the class with `@Path` is covered by `OneRecordPerRoutableMethod`
  through `MethodEndpoints`.
- Discovery.CreateEndpoint: its own contract covers only the copied fields;
  the computed fields are stated by `CreateEndpointFields` and
  `CreateEndpointWellFormed`.
- Misnamed annotations: an `Other` annotation is assumed not to carry the name
  of one of the modelled annotation types (reflection always reports those
  as themselves). Given such a name, the lookups by type, which ignore
  `Other`, and the exclusion filter by name, which does not, would disagree.
