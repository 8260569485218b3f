/** The HTTP handlers' decisions (package `app`), as pure functions from what a
    request parsed to and what the store answered to a status code and a body.
    JSON bytes and the router's path matching are abstract here. */
module Handlers {
  import opened Outcomes
  import opened Todos
  import opened Storage

  const StatusOK := 200
  const StatusCreated := 201
  const StatusBadRequest := 400
  const StatusNotFound := 404
  const StatusInternalServerError := 500

  /** Body of every 500 response. */
  const ServerErrorMessage := "Server encountered an error."

  /** Body the router writes for a path no route matches. */
  const NotFoundPage := "404 page not found\n"

  /** The JSON string the health handler writes. */
  const StatusMessage := "API is up and working!"

  /** What a 400 response complains about. */
  datatype Complaint = BadId | BadBody | EmptyTitle

  /** An abstract response body: a JSON array of records, one JSON record,
      a JSON string, plain text, a 400 complaint, or nothing. */
  datatype Body =
    | TodoList(items: seq<TodoValue>)
    | TodoRecord(item: TodoValue)
    | JsonString(text: string)
    | PlainText(text: string)
    | Rejected(complaint: Complaint)
    | NoBody

  datatype Response = Response(code: int, body: Body)

  /** The new-record request: required title, optional content. */
  datatype Payload = Payload(title: string, content: string)

  /** The outcome of decoding a create request's body into a Payload. */
  datatype Decoded = Decoded(payload: Payload) | Undecodable

  /** A path's id segment as the router sees it: digits or anything else. */
  datatype Segment = Numeric(n: nat) | NonNumeric(text: string)

  function ServerError(): Response
  {
    Response(StatusInternalServerError, PlainText(ServerErrorMessage))
  }

  function BadRequest(c: Complaint): Response
  {
    Response(StatusBadRequest, Rejected(c))
  }

  /** `GET /todo`: the records in storage order, or 500 when listing fails. */
  function ListResponse(listed: Result<seq<TodoValue>, StoreError>): (r: Response)
    ensures r.code == StatusOK <==> listed.Ok?
    ensures r.code == StatusOK ==> r.body.TodoList? && r.body.items == listed.value
    ensures r.code != StatusOK ==> r == ServerError()
  {
    match listed
    case Ok(vs) => Response(StatusOK, TodoList(vs))
    case Err(_) => ServerError()
  }

  /** The health handler: always 200 with the fixed JSON string. */
  function StatusResponse(): (r: Response)
    ensures r.code == StatusOK && r.body == JsonString(StatusMessage)
  {
    Response(StatusOK, JsonString(StatusMessage))
  }

  /** Validation of a create request before the store is called. */
  function CheckCreate(body: Decoded): (r: Result<Payload, Complaint>)
    ensures r.Ok? <==> body.Decoded? && body.payload.title != ""
    ensures r.Ok? ==> r.value == body.payload
    ensures body.Undecodable? ==> r == Err(BadBody)
    ensures body.Decoded? && body.payload.title == "" ==> r == Err(EmptyTitle)
  {
    match body
    case Undecodable => Err(BadBody)
    case Decoded(p) => if p.title == "" then Err(EmptyTitle) else Ok(p)
  }

  /** `POST /todo/create`: 400 for a body that does not decode or has an
      empty title (the store is then not called, and `stored` is ignored);
      otherwise 201 with the created record, or 500 when the store fails. */
  function AddTodoResponse(body: Decoded, stored: Result<TodoValue, StoreError>): (r: Response)
    ensures r.code == StatusCreated <==> CheckCreate(body).Ok? && stored.Ok?
    ensures r.code == StatusCreated ==> r.body == TodoRecord(stored.value)
    ensures r.code == StatusBadRequest <==> CheckCreate(body).Err?
    ensures r.code == StatusBadRequest ==> r.body == Rejected(CheckCreate(body).error)
    ensures r.code == StatusInternalServerError <==> CheckCreate(body).Ok? && stored.Err?
    ensures r.code == StatusInternalServerError ==> r == ServerError()
    ensures r.code in {StatusCreated, StatusBadRequest, StatusInternalServerError}
  {
    match CheckCreate(body)
    case Err(c) => BadRequest(c)
    case Ok(_) =>
      match stored
      case Ok(v) => Response(StatusCreated, TodoRecord(v))
      case Err(_) => ServerError()
  }

  /** `GET /todo/{id}`: 400 when the handler cannot parse the id (`id` is None);
      otherwise 200 with the record found, or 500 with the fixed message for a
      failed lookup, a missing id included. */
  function GetTodoResponse(id: Option<ID>, found: Result<TodoValue, StoreError>): (r: Response)
    ensures r.code == StatusOK <==> id.Some? && found.Ok?
    ensures r.code == StatusOK ==> r.body == TodoRecord(found.value)
    ensures r.code == StatusBadRequest <==> id.None?
    ensures id.None? ==> r == BadRequest(BadId)
    ensures r.code == StatusInternalServerError <==> id.Some? && found.Err?
    ensures r.code == StatusInternalServerError ==> r.body == PlainText(ServerErrorMessage)
  {
    match id
    case None => BadRequest(BadId)
    case Some(_) =>
      match found
      case Ok(v) => Response(StatusOK, TodoRecord(v))
      case Err(_) => ServerError()
  }

  /** `POST /todo/{id}/finish`: 400 for an unparseable id; otherwise 200 when
      the store finished a record, 500 when it reported an error. */
  function FinishTodoResponse(id: Option<ID>, failed: Option<StoreError>): (r: Response)
    ensures r.code == StatusOK <==> id.Some? && failed.None?
    ensures r.code == StatusBadRequest <==> id.None?
    ensures r.code == StatusInternalServerError <==> id.Some? && failed.Some?
    ensures r.code == StatusInternalServerError ==> r == ServerError()
  {
    match id
    case None => BadRequest(BadId)
    case Some(_) =>
      match failed
      case None => Response(StatusOK, NoBody)
      case Some(_) => ServerError()
  }

  /** The router's id pattern: a numeric segment reaches the handler with its
      value; any other segment matches no route. */
  function RouteId(seg: Segment): (r: Option<ID>)
    ensures r.Some? <==> seg.Numeric?
    ensures r.Some? ==> r.value == seg.n && r.value >= 0
  {
    match seg
    case Numeric(n) => Some(n)
    case NonNumeric(_) => None
  }

  /** The response for a path that matches no route. */
  function RouterNotFound(): (r: Response)
    ensures r.code == StatusNotFound && r.body == PlainText(NotFoundPage)
  {
    Response(StatusNotFound, PlainText(NotFoundPage))
  }
}
