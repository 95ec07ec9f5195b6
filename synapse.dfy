/**
 * The parts of the Synapse runtime the connector touches: JSON values, the
 * connector response a mediator stores in a variable, and the message context
 * with its template parameters, properties, variables and JSON body.
 */
module Synapse {

  import opened Common

  /** A JSON value, as the payloads and attributes of a response carry them. */
  datatype Json =
    | JNull
    | JBool(b: bool)
    | JNumber(n: int)
    | JString(s: string)
    | JArray(items: seq<Json>)
    | JObject(fields: map<string, Json>)

  /** `DefaultConnectorResponse`: a payload (unset when the body was overwritten), headers and attributes. */
  datatype ConnectorResponse = ConnectorResponse(
    payload: Option<Json>,
    headers: map<string, Json>,
    attributes: map<string, Json>)

  /** Everything about a message context that an operation may change. */
  datatype ContextState = ContextState(
    properties: map<string, string>,
    variables: map<string, ConnectorResponse>,
    jsonBody: Option<Json>,
    axis2Properties: map<string, string>)

  const ERROR_CODE: string := "ERROR_CODE"
  const ERROR_MESSAGE: string := "ERROR_MESSAGE"
  const MESSAGE_TYPE: string := "messageType"
  const CONTENT_TYPE: string := "ContentType"
  const JSON_CONTENT_TYPE: string := "application/json"

  /**
   * A Synapse message context. The template parameters of the current call are
   * fixed; properties, variables and the JSON body are changed in place.
   */
  class MessageContext {
    const parameters: map<string, string>
    var properties: map<string, string>
    var variables: map<string, ConnectorResponse>
    var jsonBody: Option<Json>
    var axis2Properties: map<string, string>

    constructor (parameters: map<string, string>, properties: map<string, string>)
      ensures this.parameters == parameters
      ensures State() == ContextState(properties, map[], None, map[])
    {
      this.parameters := parameters;
      this.properties := properties;
      variables := map[];
      jsonBody := None;
      axis2Properties := map[];
    }

    /** The changeable part of the context. */
    function State(): ContextState
      reads this
    {
      ContextState(properties, variables, jsonBody, axis2Properties)
    }

    /** `setProperty`: one property is set, nothing else changes. */
    method SetProperty(key: string, value: string)
      modifies this
      ensures State() == old(State()).(properties := old(properties)[key := value])
    {
      properties := properties[key := value];
    }

    /** `setVariable`: one variable is set, nothing else changes. */
    method SetVariable(name: string, value: ConnectorResponse)
      modifies this
      ensures State() == old(State()).(variables := old(variables)[name := value])
    {
      variables := variables[name := value];
    }

    /**
     * `JsonUtil.getNewJsonPayload` followed by setting the message and content
     * types of the Axis2 context to JSON.
     */
    method ReplaceJsonBody(body: Json)
      modifies this
      ensures State() == old(State()).(
        jsonBody := Some(body),
        axis2Properties := old(axis2Properties)[MESSAGE_TYPE := JSON_CONTENT_TYPE][CONTENT_TYPE := JSON_CONTENT_TYPE])
    {
      jsonBody := Some(body);
      axis2Properties := axis2Properties[MESSAGE_TYPE := JSON_CONTENT_TYPE];
      axis2Properties := axis2Properties[CONTENT_TYPE := JSON_CONTENT_TYPE];
    }
  }
}
