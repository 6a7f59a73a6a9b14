/**
 * The per-method HTTP handlers of pkg/handlers/handlers.go: each calls one
 * user operation and maps its outcome to a status code and a JSON body.
 * The response is a (status, body) pair; the JSON encoding and the
 * Content-Type header are not modelled.
 */
module Handlers {
  import opened Wrappers
  import opened Users

  const StatusOK := 200
  const StatusCreated := 201
  const StatusBadRequest := 400
  const StatusMethodNotAllowed := 405

  const ErrorMethodNotAllowed := "method not allowed"
  const ErrorEmailRequired := "email is required"

  /** What a response body encodes. */
  datatype Body =
    | Record(user: User)          // one user object
    | Records(users: seq<User>)   // a JSON array of users
    | ErrorBody(error: string)    // {"error": "<message>"}
    | Text(text: string)          // a bare JSON string
    | Null                        // JSON null

  datatype Response = Response(statusCode: int, body: Body)

  /** An API Gateway proxy request, with the JSON body already parsed (None when malformed). */
  datatype Request = Request(httpMethod: string, queryStringParameters: map<string, string>, body: Option<User>)

  /** A response together with the tables the handler leaves behind. */
  datatype Served = Served(response: Response, db: Tables)

  /** Indexing a Go map: a missing parameter reads as the empty string. */
  function QueryParam(req: Request, name: string): (v: string)
    ensures name !in req.queryStringParameters ==> v == ""
    ensures name in req.queryStringParameters ==> v == req.queryStringParameters[name]
  {
    if name in req.queryStringParameters then req.queryStringParameters[name] else ""
  }

  /** The 400 response every handler gives for an error: the message, unchanged. */
  function BadRequest(msg: string): (resp: Response)
    ensures resp.statusCode == 400 && resp.body.ErrorBody? && resp.body.error == msg
  {
    Response(StatusBadRequest, ErrorBody(msg))
  }

  /** The outcome of a user operation returning a record, mapped to a response. */
  function RecordReply(r: Result<User, string>, okStatus: int): (resp: Response)
    ensures r.Ok? ==> resp.statusCode == okStatus && resp.body == Record(r.value)
    ensures r.Err? ==> resp == BadRequest(r.error)
  {
    match r
    case Ok(u) => Response(okStatus, Record(u))
    case Err(msg) => BadRequest(msg)
  }

  /** The outcome of FetchUsers mapped to a response: 200 with the list, or 400. */
  function ListReply(r: Result<seq<User>, string>): (resp: Response)
    ensures r.Ok? ==> resp.statusCode == 200 && resp.body == Records(r.value)
    ensures r.Err? ==> resp == BadRequest(r.error)
  {
    match r
    case Ok(users) => Response(StatusOK, Records(users))
    case Err(msg) => BadRequest(msg)
  }

  /** GetUser: which responses are possible for the tables and the request. */
  ghost predicate GetServed(db: Tables, req: Request, tableName: string, f: Faults, resp: Response) {
    var email := QueryParam(req, "email");
    if |email| > 0 then resp == RecordReply(FetchUser(db, email, tableName, f), StatusOK)
    else (exists r :: FetchedAll(db, tableName, f, r) && resp == ListReply(r))
  }

  /** CreateUser handler: 201 with the record, or 400 with the error. */
  function CreateServed(db: Tables, req: Request, tableName: string,
                        isEmailValid: string -> bool, f: Faults): (s: Served)
    ensures s.response.statusCode == 201 || s.response.statusCode == 400
    ensures s.response.statusCode == 201 <==>
      CreateEffect(db, req.body, tableName, isEmailValid, f).result.Ok?
    ensures s.response.statusCode == 201 ==>
      req.body.Some? && s.response.body == Record(req.body.value)
    ensures s.response.statusCode == 400 ==>
      s.db == db && s.response == BadRequest(CreateEffect(db, req.body, tableName, isEmailValid, f).result.error)
    ensures s.db == CreateEffect(db, req.body, tableName, isEmailValid, f).db
  {
    var step := CreateEffect(db, req.body, tableName, isEmailValid, f);
    Served(RecordReply(step.result, StatusCreated), step.db)
  }

  /** UpdateUser handler: 200 with the record, or 400 with the error. */
  function UpdateServed(db: Tables, req: Request, tableName: string, f: Faults): (s: Served)
    ensures s.response.statusCode == 200 || s.response.statusCode == 400
    ensures s.response.statusCode == 200 <==> UpdateEffect(db, req.body, tableName, f).result.Ok?
    ensures s.response.statusCode == 200 ==>
      req.body.Some? && s.response.body == Record(req.body.value)
    ensures s.response.statusCode == 400 ==>
      s.db == db && s.response == BadRequest(UpdateEffect(db, req.body, tableName, f).result.error)
    ensures s.db == UpdateEffect(db, req.body, tableName, f).db
  {
    var step := UpdateEffect(db, req.body, tableName, f);
    Served(RecordReply(step.result, StatusOK), step.db)
  }

  /** DeleteUser handler: guard on the email parameter, then delete; 200 with null, or 400. */
  function DeleteServed(db: Tables, req: Request, tableName: string, f: Faults): (s: Served)
    ensures QueryParam(req, "email") == "" ==> s == Served(BadRequest(ErrorEmailRequired), db)
    ensures s.response.statusCode == 200 || s.response.statusCode == 400
    ensures QueryParam(req, "email") != "" ==>
      (s.response.statusCode == 200 <==> DeleteEffect(db, QueryParam(req, "email"), tableName, f).result.Ok?)
    ensures s.response.statusCode == 200 ==>
      && s.response.body == Null && tableName in db
      && s.db == Remove(db, tableName, QueryParam(req, "email"))
    ensures s.response.statusCode == 400 ==> s.db == db && s.response.body.ErrorBody?
    ensures QueryParam(req, "email") != "" && s.response.statusCode == 400 ==>
      s.response.body.error == ErrorCouldNotDeleteItem
  {
    var email := QueryParam(req, "email");
    if |email| == 0 then Served(BadRequest(ErrorEmailRequired), db)
    else
      var step := DeleteEffect(db, email, tableName, f);
      match step.result
      case Ok(_) => Served(Response(StatusOK, Null), step.db)
      case Err(msg) => Served(BadRequest(msg), step.db)
  }

  /** UnhandledMethod: 405 with the bare string, not an error object. */
  function UnhandledMethod(): (resp: Response)
    ensures resp.statusCode == 405 && resp.body.Text? && !resp.body.ErrorBody?
    ensures resp.body.text == "method not allowed"
  {
    Response(StatusMethodNotAllowed, Text(ErrorMethodNotAllowed))
  }

  /** GetUser: one record when `email` is given, otherwise the whole table. */
  method GetUser(req: Request, tableName: string, client: Client, f: Faults) returns (resp: Response)
    requires client.Valid()
    ensures GetServed(client.tables, req, tableName, f, resp)
  {
    var email := QueryParam(req, "email");
    if |email| > 0 {
      var result := FetchUser(client.tables, email, tableName, f);
      if result.Err? {
        return BadRequest(result.error);
      }
      return Response(StatusOK, Record(result.value));
    }
    var result := client.FetchUsers(tableName, f);
    if result.Err? {
      resp := BadRequest(result.error);
    } else {
      resp := Response(StatusOK, Records(result.value));
    }
    assert FetchedAll(client.tables, tableName, f, result);
  }

  method CreateUser(req: Request, tableName: string, client: Client,
                    isEmailValid: string -> bool, f: Faults) returns (resp: Response)
    requires client.Valid()
    modifies client
    ensures client.Valid()
    ensures Served(resp, client.tables) == CreateServed(old(client.tables), req, tableName, isEmailValid, f)
  {
    var result := client.CreateUser(req.body, tableName, isEmailValid, f);
    if result.Err? {
      return BadRequest(result.error);
    }
    return Response(StatusCreated, Record(result.value));
  }

  method UpdateUser(req: Request, tableName: string, client: Client, f: Faults) returns (resp: Response)
    requires client.Valid()
    modifies client
    ensures client.Valid()
    ensures Served(resp, client.tables) == UpdateServed(old(client.tables), req, tableName, f)
  {
    var result := client.UpdateUser(req.body, tableName, f);
    if result.Err? {
      return BadRequest(result.error);
    }
    return Response(StatusOK, Record(result.value));
  }

  method DeleteUser(req: Request, tableName: string, client: Client, f: Faults) returns (resp: Response)
    requires client.Valid()
    modifies client
    ensures client.Valid()
    ensures Served(resp, client.tables) == DeleteServed(old(client.tables), req, tableName, f)
  {
    var email := QueryParam(req, "email");
    if |email| == 0 {
      return BadRequest(ErrorEmailRequired);
    }
    var result := client.DeleteUser(email, tableName, f);
    if result.Err? {
      return BadRequest(result.error);
    }
    return Response(StatusOK, Null);
  }
}
