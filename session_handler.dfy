/**
 * The `/api/sessions` endpoint (internal/session/handler.go). Routing is
 * pure: the path gives the session id, the verb picks `list`, `create`,
 * `update` or `delete`, and each either answers at once or makes one call
 * on the store. The status code then follows from that call's result.
 * The random id of `generateID` is a parameter.
 */
module SessionHandler {
  import opened Wrappers
  import opened Sessions

  const StatusOK: int := 200
  const StatusCreated: int := 201
  const StatusNoContent: int := 204
  const StatusBadRequest: int := 400
  const StatusNotFound: int := 404
  const StatusMethodNotAllowed: int := 405
  const StatusInternalServerError: int := 500

  const Prefix: string := "/api/sessions/"

  /** A request: its verb, its URL path, and its body decoded as a `Session` (`None` if it does not decode). */
  datatype Request = Request(verb: string, path: string, body: Option<Session>)

  datatype Body = NoBody | ErrorJson(error: string) | SessionJson(session: Session) | ListJson(sessions: seq<Session>)

  datatype Response = Response(status: int, body: Body)

  /** The one store call a request may make. */
  datatype StoreCall = ListCall | AddCall(sess: Session) | UpdateCall(sess: Session) | DeleteCall(id: string)

  /** A handler either answers without the store or makes one store call. */
  datatype Step = Reply(response: Response) | Call(call: StoreCall)

  /** Go's `strings.TrimPrefix`. */
  function TrimPrefix(s: string, prefix: string): (r: string)
    ensures prefix <= s ==> prefix + r == s
    ensures !(prefix <= s) ==> r == s
  {
    if prefix <= s then s[|prefix|..] else s
  }

  /** The id part of the path: what follows `/api/sessions/`, or "" when the prefix is absent. */
  function PathId(path: string): (id: string)
    ensures Prefix <= path ==> Prefix + id == path
    ensures !(Prefix <= path) ==> id == ""
  {
    var id := TrimPrefix(path, Prefix);
    if id == path then "" else id
  }

  /** `create`: the client's ID is replaced, a zero port becomes 22, and the session is added. */
  function Create(body: Option<Session>, generatedId: string): (s: Step)
    ensures body.None? <==> s == Reply(Response(StatusBadRequest, ErrorJson("invalid request body")))
    ensures body.Some? ==> s.Call? && s.call.AddCall?
    ensures s.Call? ==> s.call.sess.id == generatedId
    ensures s.Call? ==> s.call.sess.port == (if body.value.port == 0 then 22 else body.value.port)
    ensures s.Call? ==> s.call.sess.(id := body.value.id, port := body.value.port) == body.value
  {
    match body
    case None => Reply(Response(StatusBadRequest, ErrorJson("invalid request body")))
    case Some(sess) =>
      var stored := sess.(id := generatedId);
      var stored := if stored.port == 0 then stored.(port := 22) else stored;
      Call(AddCall(stored))
  }

  /** `update`: needs a path id, which overrides the ID in the body. */
  function Update(id: string, body: Option<Session>): (s: Step)
    ensures id == "" ==> s == Reply(Response(StatusBadRequest, ErrorJson("session id required")))
    ensures id != "" && body.None? ==> s == Reply(Response(StatusBadRequest, ErrorJson("invalid request body")))
    ensures s.Call? <==> id != "" && body.Some?
    ensures s.Call? ==> s.call == UpdateCall(body.value.(id := id))
  {
    if id == "" then Reply(Response(StatusBadRequest, ErrorJson("session id required")))
    else match body
      case None => Reply(Response(StatusBadRequest, ErrorJson("invalid request body")))
      case Some(sess) => Call(UpdateCall(sess.(id := id)))
  }

  /** `delete`: needs a path id. */
  function Delete(id: string): (s: Step)
    ensures id == "" <==> s == Reply(Response(StatusBadRequest, ErrorJson("session id required")))
    ensures id != "" ==> s == Call(DeleteCall(id))
  {
    if id == "" then Reply(Response(StatusBadRequest, ErrorJson("session id required")))
    else Call(DeleteCall(id))
  }

  /** `ServeHTTP`'s dispatch on the verb. */
  function Route(req: Request, generatedId: string): (s: Step)
    ensures req.verb == "GET" ==> s == Call(ListCall)
    ensures req.verb == "POST" ==> s == Create(req.body, generatedId)
    ensures req.verb == "PUT" ==> s == Update(PathId(req.path), req.body)
    ensures req.verb == "DELETE" ==> s == Delete(PathId(req.path))
    ensures req.verb !in {"GET", "POST", "PUT", "DELETE"} ==>
      s == Reply(Response(StatusMethodNotAllowed, ErrorJson("method not allowed")))
  {
    var id := PathId(req.path);
    match req.verb
    case "GET" => Call(ListCall)
    case "POST" => Create(req.body, generatedId)
    case "PUT" => Update(id, req.body)
    case "DELETE" => Delete(id)
    case _ => Reply(Response(StatusMethodNotAllowed, ErrorJson("method not allowed")))
  }

  /**
   * The response once the store call returned: `listed` is what `Load`
   * gave for a list call; `err` is the error of the other calls.
   */
  function Complete(call: StoreCall, listed: Result<seq<Session>, StoreError>, err: Option<StoreError>): (r: Response)
    ensures call.ListCall? ==> (r.status == StatusOK <==> listed.Ok?)
    ensures call.ListCall? && listed.Ok? ==> r.body == ListJson(listed.value)
    ensures call.ListCall? && listed.Err? ==> r == Response(StatusInternalServerError, ErrorJson("failed to load sessions"))
    ensures call.AddCall? ==> r == if err.None? then Response(StatusCreated, SessionJson(call.sess))
                                   else Response(StatusInternalServerError, ErrorJson("failed to save session"))
    ensures call.UpdateCall? ==> r == if err.None? then Response(StatusOK, SessionJson(call.sess))
                                      else Response(StatusNotFound, ErrorJson("session not found"))
    ensures call.DeleteCall? ==> r == if err.None? then Response(StatusNoContent, NoBody)
                                      else Response(StatusNotFound, ErrorJson("session not found"))
  {
    match call
    case ListCall =>
      (match listed
       case Ok(sessions) => Response(StatusOK, ListJson(sessions))
       case Err(_) => Response(StatusInternalServerError, ErrorJson("failed to load sessions")))
    case AddCall(sess) =>
      if err.Some? then Response(StatusInternalServerError, ErrorJson("failed to save session"))
      else Response(StatusCreated, SessionJson(sess))
    case UpdateCall(sess) =>
      if err.Some? then Response(StatusNotFound, ErrorJson("session not found"))
      else Response(StatusOK, SessionJson(sess))
    case DeleteCall(_) =>
      if err.Some? then Response(StatusNotFound, ErrorJson("session not found"))
      else Response(StatusNoContent, NoBody)
  }

  /** The effect of a store call on the file, with its error. */
  function Perform(file: SessionFile, call: StoreCall, writeFails: bool): (e: Effect)
    ensures call.ListCall? ==> e.file == file
    ensures e.err.Some? ==> e.file == file
  {
    match call
    case ListCall => Effect(file, None)
    case AddCall(sess) => AddEffect(file, sess, writeFails)
    case UpdateCall(sess) => UpdateEffect(file, sess, writeFails)
    case DeleteCall(id) => DeleteEffect(file, id, writeFails)
  }

  /** A whole request against a store holding `file`: the response and the file afterwards. */
  function Serve(file: SessionFile, req: Request, generatedId: string, writeFails: bool): (r: (Response, SessionFile))
    ensures Route(req, generatedId).Reply? ==> r == (Route(req, generatedId).response, file)
    ensures r.0.status != StatusOK && r.0.status != StatusCreated && r.0.status != StatusNoContent ==> r.1 == file
    ensures req.verb == "GET" ==> r.1 == file
    ensures req.verb == "GET" && LoadFile(file).Ok? ==> r.0 == Response(StatusOK, ListJson(LoadFile(file).value))
  {
    match Route(req, generatedId)
    case Reply(response) => (response, file)
    case Call(call) =>
      var e := Perform(file, call, writeFails);
      (Complete(call, LoadFile(file), e.err), e.file)
  }

  /** PUT and DELETE without an id answer 400 and leave the store alone. */
  lemma MissingIdLeavesStore(file: SessionFile, req: Request, generatedId: string, writeFails: bool)
    requires req.verb == "PUT" || req.verb == "DELETE"
    requires !(Prefix <= req.path) || req.path == Prefix
    ensures Serve(file, req, generatedId, writeFails)
         == (Response(StatusBadRequest, ErrorJson("session id required")), file)
  {
  }

  /** A created session is stored last, under the generated ID, with the port defaulted. */
  lemma CreateStoresAtEnd(sessions: seq<Session>, sess: Session, generatedId: string, path: string)
    ensures var r := Serve(Stored(sessions), Request("POST", path, Some(sess)), generatedId, false);
      var stored := sess.(id := generatedId, port := if sess.port == 0 then 22 else sess.port);
      r == (Response(StatusCreated, SessionJson(stored)), Stored(sessions + [stored]))
  {
  }

  /** Deleting an id answers 204 exactly when some stored session has it. */
  lemma DeleteAnswers(sessions: seq<Session>, id: string, generatedId: string)
    requires id != ""
    ensures var r := Serve(Stored(sessions), Request("DELETE", Prefix + id, None), generatedId, false);
      (r.0.status == StatusNoContent <==> exists j :: 0 <= j < |sessions| && sessions[j].id == id) &&
      (r.0.status != StatusNoContent ==> r.0.status == StatusNotFound && r.1 == Stored(sessions))
  {
    assert PathId(Prefix + id) == id;
  }

  /** `Handler`: the store it serves. */
  class Handler {
    const store: Store

    constructor(store: Store)
      ensures this.store == store
    {
      this.store := store;
    }

    /** `ServeHTTP`: route, make the store call if any, and answer. */
    method ServeHTTP(req: Request, generatedId: string, writeFails: bool) returns (resp: Response)
      modifies store
      ensures (resp, store.file) == Serve(old(store.file), req, generatedId, writeFails)
    {
      var step := Route(req, generatedId);
      match step {
        case Reply(response) =>
          resp := response;
        case Call(call) =>
          var listed: Result<seq<Session>, StoreError> := Ok([]);
          var err: Option<StoreError> := None;
          match call {
            case ListCall =>
              listed := store.Load();
            case AddCall(sess) =>
              err := store.Add(sess, writeFails);
            case UpdateCall(sess) =>
              err := store.Update(sess, writeFails);
            case DeleteCall(id) =>
              err := store.Delete(id, writeFails);
          }
          resp := Complete(call, listed, err);
      }
    }
  }
}
