/**
 * The Lambda entry point's request handler (cmd/main.go): an exact,
 * case-sensitive switch on the HTTP method that calls one handler, always on
 * the same table. Configuration loading, client construction and logging are
 * not modelled.
 */
module Cmd {
  import opened Wrappers
  import opened Users
  import opened Handlers

  const TableName := "LambdaInGoUser"

  /** The handler a method string selects. */
  datatype Route = GetRoute | PostRoute | PutRoute | DeleteRoute | Unhandled

  function RouteOf(httpMethod: string): (r: Route)
    ensures r == GetRoute <==> httpMethod == "GET"
    ensures r == PostRoute <==> httpMethod == "POST"
    ensures r == PutRoute <==> httpMethod == "PUT"
    ensures r == DeleteRoute <==> httpMethod == "DELETE"
  {
    if httpMethod == "GET" then GetRoute
    else if httpMethod == "POST" then PostRoute
    else if httpMethod == "PUT" then PutRoute
    else if httpMethod == "DELETE" then DeleteRoute
    else Unhandled
  }

  /** The tables after one invocation: only the selected handler writes, and only to TableName. */
  function After(db: Tables, req: Request, isEmailValid: string -> bool, f: Faults): (db': Tables)
    ensures db'.Keys == db.Keys
    ensures forall name :: name in db && name != TableName ==> db'[name] == db[name]
    ensures WellKeyed(db) ==> WellKeyed(db')
    ensures RouteOf(req.httpMethod) in {GetRoute, Unhandled} ==> db' == db
  {
    match RouteOf(req.httpMethod)
    case PostRoute => CreateServed(db, req, TableName, isEmailValid, f).db
    case PutRoute => UpdateServed(db, req, TableName, f).db
    case DeleteRoute => DeleteServed(db, req, TableName, f).db
    case _ => db
  }

  /** handler: dispatch on the method; every branch passes TableName. */
  method Handler(req: Request, client: Client, isEmailValid: string -> bool, f: Faults)
    returns (resp: Response)
    requires client.Valid()
    modifies client
    ensures client.Valid()
    ensures client.tables == After(old(client.tables), req, isEmailValid, f)
    ensures RouteOf(req.httpMethod) == GetRoute ==> GetServed(old(client.tables), req, TableName, f, resp)
    ensures RouteOf(req.httpMethod) == PostRoute ==>
      resp == CreateServed(old(client.tables), req, TableName, isEmailValid, f).response
    ensures RouteOf(req.httpMethod) == PutRoute ==>
      resp == UpdateServed(old(client.tables), req, TableName, f).response
    ensures RouteOf(req.httpMethod) == DeleteRoute ==>
      resp == DeleteServed(old(client.tables), req, TableName, f).response
    ensures RouteOf(req.httpMethod) == Unhandled ==> resp == UnhandledMethod()
  {
    match req.httpMethod {
      case "GET" =>
        resp := GetUser(req, TableName, client, f);
      case "POST" =>
        resp := CreateUser(req, TableName, client, isEmailValid, f);
      case "PUT" =>
        resp := UpdateUser(req, TableName, client, f);
      case "DELETE" =>
        resp := DeleteUser(req, TableName, client, f);
      case _ =>
        resp := UnhandledMethod();
    }
  }

  /** One invocation of the Lambda: the request and the SDK failures it meets. */
  datatype Invocation = Invocation(req: Request, faults: Faults)

  /** The tables after a sequence of invocations; nothing else carries over between them. */
  function Replay(db: Tables, trace: seq<Invocation>, isEmailValid: string -> bool): Tables
    decreases |trace|
  {
    if trace == [] then db
    else Replay(After(db, trace[0].req, isEmailValid, trace[0].faults), trace[1..], isEmailValid)
  }

  /** Any sequence of requests keeps key == email and touches no table but TableName. */
  lemma {:induction false} ReplayConfinedToUserTable(db: Tables, trace: seq<Invocation>,
                                                     isEmailValid: string -> bool)
    requires WellKeyed(db)
    ensures Replay(db, trace, isEmailValid).Keys == db.Keys
    ensures WellKeyed(Replay(db, trace, isEmailValid))
    ensures forall name :: name in db && name != TableName ==> Replay(db, trace, isEmailValid)[name] == db[name]
  {
    if trace != [] {
      ReplayConfinedToUserTable(After(db, trace[0].req, isEmailValid, trace[0].faults), trace[1..], isEmailValid);
    }
  }

  /** A trace of GETs and unknown methods leaves the tables exactly as they were. */
  lemma {:induction false} ReadOnlyReplay(db: Tables, trace: seq<Invocation>, isEmailValid: string -> bool)
    requires forall i :: 0 <= i < |trace| ==> RouteOf(trace[i].req.httpMethod) in {GetRoute, Unhandled}
    ensures Replay(db, trace, isEmailValid) == db
  {
    if trace != [] {
      ReadOnlyReplay(db, trace[1..], isEmailValid);
    }
  }

  /** Worked examples of the exact, case-sensitive matching in RouteOf. */
  lemma LowerCaseIsUnhandled()
    ensures RouteOf("get") == Unhandled && RouteOf("post") == Unhandled
    ensures RouteOf("put") == Unhandled && RouteOf("delete") == Unhandled
    ensures RouteOf("PATCH") == Unhandled
  {
  }
}
