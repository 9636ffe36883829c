/**
 * The `/api/settings` endpoint (internal/config/handler.go): method
 * dispatch, GET through `Store.Load`, and PUT's decode, `Validate`, `Save`
 * gate. A request is given by its method and its decoded body; the store
 * by its file and by whether a write fails. The result is the status
 * code, the JSON body and the settings handed to `Save`, if any.
 */
module ConfigHandler {
  import opened Wrappers
  import opened Config

  const StatusOK: int := 200
  const StatusBadRequest: int := 400
  const StatusMethodNotAllowed: int := 405
  const StatusInternalServerError: int := 500

  /** The JSON written back: an `{"error": ...}` object or a settings object. */
  datatype Body = ErrorJson(error: string) | SettingsJson(settings: Settings)

  /** What one request produced: status, body, and the argument of `Save` if it was called. */
  datatype Outcome = Outcome(status: int, body: Body, saved: Option<Settings>)

  /** `get`: the loaded settings, or 500 when the file cannot be read or parsed. */
  function Get(file: SettingsFile): (o: Outcome)
    ensures o.saved.None?
    ensures Load(file).Ok? <==> o.status == StatusOK
    ensures Load(file).Ok? ==> o.body == SettingsJson(Load(file).value)
    ensures Load(file).Err? ==> o == Outcome(StatusInternalServerError, ErrorJson("failed to load settings"), None)
  {
    match Load(file)
    case Ok(s) => Outcome(StatusOK, SettingsJson(s), None)
    case Err(_) => Outcome(StatusInternalServerError, ErrorJson("failed to load settings"), None)
  }

  /**
   * `put`: `body` is `None` when the request body is not valid JSON for
   * `Settings`; otherwise its keys are laid over Go's zero value (not the
   * defaults), then validated, then saved.
   */
  function Put(body: Option<SettingsDoc>, saveFails: bool): (o: Outcome)
    ensures body.None? ==> o == Outcome(StatusBadRequest, ErrorJson("invalid request body"), None)
    ensures body.Some? && !ValidSettings(Overlay(ZeroSettings(), body.value)) ==>
      o.status == StatusBadRequest && o.saved.None? &&
      o.body == ErrorJson(Message(Validate(Overlay(ZeroSettings(), body.value)).value))
    ensures o.saved.Some? <==> body.Some? && ValidSettings(Overlay(ZeroSettings(), body.value))
    ensures o.saved.Some? ==> o.saved.value == Overlay(ZeroSettings(), body.value)
    ensures o.saved.Some? && saveFails ==>
      o == Outcome(StatusInternalServerError, ErrorJson("failed to save settings"), o.saved)
    ensures o.status == StatusOK <==> o.saved.Some? && !saveFails
    ensures o.status == StatusOK ==> o.body == SettingsJson(o.saved.value)
  {
    match body
    case None => Outcome(StatusBadRequest, ErrorJson("invalid request body"), None)
    case Some(doc) =>
      var settings := Overlay(ZeroSettings(), doc);
      match Validate(settings)
      case Some(v) => Outcome(StatusBadRequest, ErrorJson(Message(v)), None)
      case None =>
        if saveFails then Outcome(StatusInternalServerError, ErrorJson("failed to save settings"), Some(settings))
        else Outcome(StatusOK, SettingsJson(settings), Some(settings))
  }

  /** `ServeHTTP`: GET and PUT are served, every other method gets 405. */
  function ServeHTTP(verb: string, body: Option<SettingsDoc>, file: SettingsFile, saveFails: bool): (o: Outcome)
    ensures verb == "GET" ==> o == Get(file)
    ensures verb == "PUT" ==> o == Put(body, saveFails)
    ensures verb != "GET" && verb != "PUT" ==>
      o == Outcome(StatusMethodNotAllowed, ErrorJson("method not allowed"), None)
    ensures o.saved.Some? ==> verb == "PUT" && ValidSettings(o.saved.value)
  {
    if verb == "GET" then Get(file)
    else if verb == "PUT" then Put(body, saveFails)
    else Outcome(StatusMethodNotAllowed, ErrorJson("method not allowed"), None)
  }

  /** A PUT that leaves out the `ssh` object decodes a zero timeout and is refused. */
  lemma PutWithoutSshIsRefused(term: Option<TerminalDoc>, file: SettingsFile, saveFails: bool)
    ensures ServeHTTP("PUT", Some(SettingsDoc(None, term)), file, saveFails)
         == Outcome(StatusBadRequest, ErrorJson("connectionTimeout must be between 1 and 120"), None)
  {
  }

  /** A successful PUT of valid settings is what a following GET returns. */
  lemma PutThenGet(s: Settings, file: SettingsFile)
    requires ValidSettings(s)
    ensures ServeHTTP("PUT", Some(FullDoc(s)), file, false) == Outcome(StatusOK, SettingsJson(s), Some(s))
    ensures ServeHTTP("GET", None, Save(s), false) == Outcome(StatusOK, SettingsJson(s), None)
  {
    assert Overlay(ZeroSettings(), FullDoc(s)) == s;
  }
}
