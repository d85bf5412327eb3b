/** The records the documenter produces: one `RestEndpoint` per route and
    verb, with its parameters as `EndpointParameter`s. */
module Records {
  import opened Wrappers

  /** The HTTP verb of an endpoint (`MethodEnum`). */
  datatype Verb = GET | POST | PUT | DELETE

  /** Where a parameter's value comes from (`ParameterType`). */
  datatype ParameterType = PATH | QUERY | PAYLOAD

  /** A handler parameter that is not a context object. Absent Java fields
      (`null`) are `None`. */
  datatype EndpointParameter = EndpointParameter(
    parameterType: ParameterType,
    javaType: string,
    defaultValue: Option<string>,
    name: Option<string>,
    pattern: Option<string>)

  datatype RestEndpoint = RestEndpoint(
    uri: string,
    verb: Verb,
    javaClass: string,
    javaMethodName: string,
    javaMethodReturnType: string,
    pathParameters: seq<EndpointParameter>,
    queryParameters: seq<EndpointParameter>,
    payloadParameters: seq<EndpointParameter>,
    description: Option<string>,
    tags: seq<string>,
    notes: Option<string>,
    consumes: seq<string>,
    produces: seq<string>,
    successResponseTypes: seq<string>,
    failureResponseTypes: seq<string>,
    annotations: seq<string>)
}
