/** The SUPPA AI tool: the function the agent calls with a JSON text. It
    checks the parameters each action needs, sends one request and returns
    the response as text; every error becomes a returned "Error: …" text. */
module AiTool {
  import opened Wrappers
  import opened JsonValues
  import opened Http

  /** `JSON.stringify`, left abstract. */
  type Stringify = Json -> string

  /** The destructured `{action, table, data}` of the parsed input. */
  datatype ToolInput = ToolInput(action: Json, table: Json, data: Json)

  const ActionRequired: string := "Action parameter is required"
  const CredentialsMissing: string := "Suppa API credentials not found"
  const UnexpectedError: string := "An unexpected error occurred"

  /** `const { action, table, data } = parsedInput`: a TypeError on `null`
      and `undefined`; on any other value each missing property is
      `undefined`. */
  function Destructure(parsed: Json): (r: Result<ToolInput, string>)
    ensures r.Failure? <==> IsNullish(parsed)
    ensures r.Success? ==>
              r.value == ToolInput(OptProp(parsed, "action"), OptProp(parsed, "table"), OptProp(parsed, "data"))
  {
    match parsed
    case JUndef => Failure("Cannot destructure property 'action' of 'parsedInput' as it is undefined.")
    case JNull => Failure("Cannot destructure property 'action' of 'parsedInput' as it is null.")
    case _ => Success(ToolInput(OptProp(parsed, "action"), OptProp(parsed, "table"), OptProp(parsed, "data")))
  }

  /** The actions that need `table` and `data.id`. */
  predicate NeedsRecordId(action: Json) {
    action == JStr("getById") || action == JStr("updateById") || action == JStr("deleteById")
  }

  /** The actions the switch knows. */
  predicate KnownToolAction(action: Json) {
    || action == JStr("getTables") || action == JStr("getTableFields") || action == JStr("getByFilter")
    || action == JStr("create") || NeedsRecordId(action)
  }

  /** `${baseUrl}/tables/${table}/records/${data.id}` */
  function ToolRecordUrl(c: Credentials, inp: ToolInput): string {
    c.baseUrl + "/tables/" + ToText(inp.table) + "/records/" + ToText(OptProp(inp.data, "id"))
  }

  /** The record actions: the request for a table and a record id, or the
      message of their shared parameter check. */
  function RecordRequest(c: Credentials, inp: ToolInput, stringify: Stringify): (r: Result<Request, string>)
    requires NeedsRecordId(inp.action)
    ensures r.Failure? <==> !Truthy(inp.table) || !Truthy(OptProp(inp.data, "id"))
    ensures r.Failure? ==> r.error == "Table and data.id parameters are required for " + inp.action.s + " action"
    ensures r.Success? ==> r.value.url == ToolRecordUrl(c, inp) && r.value.headers == JsonHeaders(c)
  {
    if !Truthy(inp.table) || !Truthy(OptProp(inp.data, "id")) then
      Failure("Table and data.id parameters are required for " + inp.action.s + " action")
    else if inp.action == JStr("getById") then
      Success(Request(GET, ToolRecordUrl(c, inp), JsonHeaders(c), NoBody))
    else if inp.action == JStr("updateById") then
      Success(Request(PUT, ToolRecordUrl(c, inp), JsonHeaders(c), TextBody(stringify(inp.data))))
    else
      Success(Request(DELETE, ToolRecordUrl(c, inp), JsonHeaders(c), NoBody))
  }

  /** The request the tool sends, or the message of the ApplicationError it
      throws first: a falsy action, missing credentials, a missing table or
      data, or an unknown action. */
  function ToolRequest(inp: ToolInput, creds: Option<Credentials>, stringify: Stringify)
    : (r: Result<Request, string>)
    ensures !Truthy(inp.action) ==> r == Failure(ActionRequired)
    ensures Truthy(inp.action) && creds.None? ==> r == Failure(CredentialsMissing)
    ensures Truthy(inp.action) && creds.Some? && !KnownToolAction(inp.action) ==>
              r == Failure("Unknown action: " + ToText(inp.action))
    ensures r.Success? ==> creds.Some? && r.value.headers == JsonHeaders(creds.value)
  {
    if !Truthy(inp.action) then Failure(ActionRequired)
    else if creds.None? then Failure(CredentialsMissing)
    else
      var c := creds.value;
      if inp.action == JStr("getTables") then
        Success(Request(GET, c.baseUrl + "api/all_entities", JsonHeaders(c), NoBody))
      else if inp.action == JStr("getTableFields") then
        if !Truthy(inp.table) then Failure("Table parameter is required for getTableFields action")
        else Success(Request(GET, c.baseUrl + "api/entity_props/" + ToText(inp.table), JsonHeaders(c), NoBody))
      else if inp.action == JStr("getByFilter") then
        if !Truthy(inp.table) then Failure("Table parameter is required for getByFilter action")
        else Success(Request(POST, c.baseUrl + "/tables/" + ToText(inp.table) + "/query", JsonHeaders(c),
                             TextBody(stringify(Or(inp.data, EmptyObject)))))
      else if inp.action == JStr("create") then
        if !Truthy(inp.table) || !Truthy(inp.data) then
          Failure("Table and data parameters are required for create action")
        else Success(Request(POST, c.baseUrl + "/tables/" + ToText(inp.table) + "/records", JsonHeaders(c),
                             TextBody(stringify(inp.data))))
      else if NeedsRecordId(inp.action) then RecordRequest(c, inp, stringify)
      else Failure("Unknown action: " + ToText(inp.action))
  }

  /** With credentials present, the lookups: getTables needs nothing;
      getTableFields and getByFilter need a truthy table, or fail with
      their own message; each has its method, address and body. */
  lemma ToolReadActions(inp: ToolInput, c: Credentials, stringify: Stringify)
    requires inp.action == JStr("getTables") || inp.action == JStr("getTableFields")
             || inp.action == JStr("getByFilter")
    ensures var r := ToolRequest(inp, Some(c), stringify);
            && (inp.action == JStr("getTables") ==>
                  r == Success(Request(GET, c.baseUrl + "api/all_entities", JsonHeaders(c), NoBody)))
            && (inp.action != JStr("getTables") ==> (r.Failure? <==> !Truthy(inp.table)))
            && (inp.action == JStr("getTableFields") && r.Failure? ==>
                  r.error == "Table parameter is required for getTableFields action")
            && (inp.action == JStr("getTableFields") && r.Success? ==>
                  r.value.verb == GET && r.value.body.NoBody?
                  && r.value.url == c.baseUrl + "api/entity_props/" + ToText(inp.table))
            && (inp.action == JStr("getByFilter") && r.Failure? ==>
                  r.error == "Table parameter is required for getByFilter action")
            && (inp.action == JStr("getByFilter") && r.Success? ==>
                  r.value.verb == POST
                  && r.value.url == c.baseUrl + "/tables/" + ToText(inp.table) + "/query"
                  && r.value.body == TextBody(stringify(Or(inp.data, EmptyObject))))
  {
  }

  /** With credentials present, create needs a truthy table and data, or
      fails with its message; it posts the serialised data to the table's
      records. */
  lemma ToolCreateAction(inp: ToolInput, c: Credentials, stringify: Stringify)
    requires inp.action == JStr("create")
    ensures var r := ToolRequest(inp, Some(c), stringify);
            && (r.Failure? <==> !Truthy(inp.table) || !Truthy(inp.data))
            && (r.Failure? ==> r.error == "Table and data parameters are required for create action")
            && (r.Success? ==> r.value.verb == POST
                               && r.value.url == c.baseUrl + "/tables/" + ToText(inp.table) + "/records"
                               && r.value.body == TextBody(stringify(inp.data)))
  {
  }

  /** With credentials present, getById, updateById and deleteById need a
      truthy table and `data.id` (RecordRequest gives the message); each
      addresses the record with its own method. */
  lemma ToolRecordActions(inp: ToolInput, c: Credentials, stringify: Stringify)
    requires NeedsRecordId(inp.action)
    ensures var r := ToolRequest(inp, Some(c), stringify);
            && (r.Failure? <==> !Truthy(inp.table) || !Truthy(OptProp(inp.data, "id")))
            && (r.Success? ==> r.value.url == ToolRecordUrl(c, inp))
            && (inp.action == JStr("getById") && r.Success? ==> r.value.verb == GET && r.value.body.NoBody?)
            && (inp.action == JStr("updateById") && r.Success? ==>
                  r.value.verb == PUT && r.value.body == TextBody(stringify(inp.data)))
            && (inp.action == JStr("deleteById") && r.Success? ==> r.value.verb == DELETE && r.value.body.NoBody?)
  {
  }

  /** `response.map(t => ({name: t.name, value: t.id}))`: a TypeError on a
      nullish response or element, or on a response that is not an array. */
  function TablesProjection(response: Json): (r: Result<Json, Thrown>)
    ensures r.Success? <==> response.JArr? && forall k :: 0 <= k < |response.items| ==> !IsNullish(response.items[k])
    ensures r.Success? ==>
              && r.value.JArr? && |r.value.items| == |response.items|
              && forall k :: 0 <= k < |response.items| ==>
                   r.value.items[k] == JObj(map["name" := OptProp(response.items[k], "name"),
                                                "value" := OptProp(response.items[k], "id")])
  {
    match Prop(response, "map")
    case Failure(m) => Failure(ErrorObject(m))
    case Success(_) =>
      if !response.JArr? then Failure(ErrorObject("response.map is not a function"))
      else
        match ProjectTables(response.items)
        case Failure(m) => Failure(ErrorObject(m))
        case Success(tables) => Success(JArr(tables))
  }

  function ProjectTables(items: seq<Json>): (r: Result<seq<Json>, string>)
    ensures r.Success? <==> forall k :: 0 <= k < |items| ==> !IsNullish(items[k])
    ensures r.Success? ==>
              && |r.value| == |items|
              && forall k :: 0 <= k < |items| ==>
                   r.value[k] == JObj(map["name" := OptProp(items[k], "name"), "value" := OptProp(items[k], "id")])
  {
    if items == [] then Success([])
    else
      match Prop(items[0], "name")
      case Failure(m) => Failure(m)
      case Success(name) =>
        match ProjectTables(items[1..])
        case Failure(m) => Failure(m)
        case Success(rest) =>
          Success([JObj(map["name" := name, "value" := OptProp(items[0], "id")])] + rest)
  }

  /** The value the `try` block returns before stringification, or what it
      throws. */
  function ToolValue(input: string, creds: Option<Credentials>, parse: Parser, stringify: Stringify,
                     transport: Request -> Response): (r: Result<Json, Thrown>)
    ensures parse(input).SyntaxError? ==> r == Failure(ErrorObject(parse(input).message))
    ensures parse(input).Parsed? && Destructure(parse(input).value).Failure? ==>
              r == Failure(ErrorObject(Destructure(parse(input).value).error))
    ensures r.Success? ==>
              && parse(input).Parsed?
              && Destructure(parse(input).value).Success?
              && ToolRequest(Destructure(parse(input).value).value, creds, stringify).Success?
    ensures r.Failure? && r.error.NonError? ==>
              && parse(input).Parsed?
              && Destructure(parse(input).value).Success?
              && ToolRequest(Destructure(parse(input).value).value, creds, stringify).Success?
              && transport(ToolRequest(Destructure(parse(input).value).value, creds, stringify).value)
                 == Rejected(r.error)
    ensures parse(input).Parsed? && Destructure(parse(input).value).Success?
            && ToolRequest(Destructure(parse(input).value).value, creds, stringify).Success?
            && transport(ToolRequest(Destructure(parse(input).value).value, creds, stringify).value).Rejected? ==>
              r == Failure(transport(ToolRequest(Destructure(parse(input).value).value, creds, stringify).value).reason)
  {
    match parse(input)
    case SyntaxError(m) => Failure(ErrorObject(m))
    case Parsed(parsed) =>
      match Destructure(parsed)
      case Failure(m) => Failure(ErrorObject(m))
      case Success(inp) =>
        match ToolRequest(inp, creds, stringify)
        case Failure(m) => Failure(ErrorObject(m))
        case Success(req) =>
          match transport(req)
          case Rejected(reason) => Failure(reason)
          case Resolved(response) =>
            if inp.action == JStr("getTables") then TablesProjection(response)
            else Success(response)
  }

  /** The tool function: it never throws; the serialised value, "Error: "
      and the message of an Error, or the fixed text for anything else. */
  function RunTool(input: string, creds: Option<Credentials>, parse: Parser, stringify: Stringify,
                   transport: Request -> Response): (r: string)
    ensures var v := ToolValue(input, creds, parse, stringify, transport);
            && (v.Success? ==> r == stringify(v.value))
            && (v.Failure? && v.error.ErrorObject? ==> r == "Error: " + v.error.message)
            && (v.Failure? && v.error.NonError? ==> r == UnexpectedError)
  {
    match ToolValue(input, creds, parse, stringify, transport)
    case Success(value) => stringify(value)
    case Failure(ErrorObject(m)) => "Error: " + m
    case Failure(NonError(_)) => UnexpectedError
  }

  /** A failed parameter check is answered with its message and sends no
      request: the answer is the same whatever the transport would do. */
  lemma ValidationSendsNothing(input: string, creds: Option<Credentials>, parse: Parser, stringify: Stringify,
                               t1: Request -> Response, t2: Request -> Response, inp: ToolInput)
    requires parse(input).Parsed? && Destructure(parse(input).value) == Success(inp)
    requires ToolRequest(inp, creds, stringify).Failure?
    ensures RunTool(input, creds, parse, stringify, t1) == RunTool(input, creds, parse, stringify, t2)
    ensures RunTool(input, creds, parse, stringify, t1) == "Error: " + ToolRequest(inp, creds, stringify).error
  {
  }

  /** A request the transport rejects is answered with "Error: " and the
      message of an Error, or with the fixed text for any other value. */
  lemma TransportRejection(input: string, c: Credentials, parse: Parser, stringify: Stringify,
                           transport: Request -> Response, inp: ToolInput, e: Thrown)
    requires parse(input).Parsed? && Destructure(parse(input).value) == Success(inp)
    requires ToolRequest(inp, Some(c), stringify).Success?
    requires transport(ToolRequest(inp, Some(c), stringify).value) == Rejected(e)
    ensures RunTool(input, Some(c), parse, stringify, transport)
         == (if e.ErrorObject? then "Error: " + e.message else UnexpectedError)
  {
  }

  /** A missing or falsy action is reported before anything else is
      looked at, credentials included. */
  lemma MissingAction(input: string, creds: Option<Credentials>, parse: Parser, stringify: Stringify,
                      transport: Request -> Response)
    requires parse(input).Parsed? && !IsNullish(parse(input).value)
    requires !Truthy(OptProp(parse(input).value, "action"))
    ensures RunTool(input, creds, parse, stringify, transport) == "Error: " + ActionRequired
  {
    var inp := Destructure(parse(input).value).value;
    assert ToolRequest(inp, creds, stringify) == Failure(ActionRequired);
  }

  /** Input that is not JSON is answered with the parser's message. */
  lemma MalformedInput(input: string, creds: Option<Credentials>, parse: Parser, stringify: Stringify,
                       transport: Request -> Response)
    requires parse(input).SyntaxError?
    ensures RunTool(input, creds, parse, stringify, transport) == "Error: " + parse(input).message
  {
  }

  /** Every action other than getTables returns the response serialised
      as it is. */
  lemma ResponsePassThrough(input: string, c: Credentials, parse: Parser, stringify: Stringify,
                            transport: Request -> Response, inp: ToolInput, response: Json)
    requires parse(input).Parsed? && Destructure(parse(input).value) == Success(inp)
    requires inp.action != JStr("getTables")
    requires ToolRequest(inp, Some(c), stringify).Success?
    requires transport(ToolRequest(inp, Some(c), stringify).value) == Resolved(response)
    ensures RunTool(input, Some(c), parse, stringify, transport) == stringify(response)
  {
  }

  /** A getTables answer is the `{name, value}` projection of the response,
      serialised; a response that cannot be projected is answered with the
      TypeError's message. */
  lemma GetTablesProjected(input: string, c: Credentials, parse: Parser, stringify: Stringify,
                           transport: Request -> Response, inp: ToolInput, response: Json)
    requires parse(input).Parsed? && Destructure(parse(input).value) == Success(inp)
    requires inp.action == JStr("getTables")
    requires transport(Request(GET, c.baseUrl + "api/all_entities", JsonHeaders(c), NoBody)) == Resolved(response)
    ensures TablesProjection(response).Success? ==>
              RunTool(input, Some(c), parse, stringify, transport) == stringify(TablesProjection(response).value)
    ensures TablesProjection(response).Failure? ==>
              RunTool(input, Some(c), parse, stringify, transport)
              == "Error: " + TablesProjection(response).error.message
  {
    assert ToolRequest(inp, Some(c), stringify)
        == Success(Request(GET, c.baseUrl + "api/all_entities", JsonHeaders(c), NoBody));
  }
}
