/**
 * Server-side settings (internal/config/config.go): the built-in defaults,
 * the range and enumeration checks of `Validate`, and how `Store.Load`
 * lays a stored JSON document over the defaults. The settings file itself
 * is abstracted to a value saying whether it exists and what it holds.
 */
module Config {
  import opened Wrappers

  datatype SSHSettings = SSHSettings(
    connectionTimeout: int,
    keepAliveInterval: int,
    keepAliveMaxFails: int)

  datatype TerminalSettings = TerminalSettings(
    fontSize: int,
    cursorStyle: string,
    cursorBlink: bool,
    scrollbackLines: int)

  datatype Settings = Settings(ssh: SSHSettings, terminal: TerminalSettings)

  /** The built-in configuration used when nothing is stored. */
  function DefaultSettings(): (s: Settings)
    ensures s.ssh == SSHSettings(10, 30, 3)
    ensures s.terminal == TerminalSettings(14, "block", true, 1000)
  {
    Settings(
      SSHSettings(connectionTimeout := 10, keepAliveInterval := 30, keepAliveMaxFails := 3),
      TerminalSettings(fontSize := 14, cursorStyle := "block", cursorBlink := true, scrollbackLines := 1000))
  }

  /** Go's zero value of `Settings`, the starting point of a request body decode. */
  function ZeroSettings(): (s: Settings)
    ensures s.ssh == SSHSettings(0, 0, 0)
    ensures s.terminal == TerminalSettings(0, "", false, 0)
  {
    Settings(SSHSettings(0, 0, 0), TerminalSettings(0, "", false, 0))
  }

  // ---------------------------------------------------------------------
  // Validation
  // ---------------------------------------------------------------------

  /** The six checks of `Validate`, in the order the source performs them. */
  datatype Violation =
    | BadConnectionTimeout
    | BadKeepAliveInterval
    | BadKeepAliveMaxFails
    | BadFontSize
    | BadCursorStyle
    | BadScrollbackLines

  /** The text of the error `Validate` returns for a violation. */
  function Message(v: Violation): (m: string)
    ensures m != ""
  {
    match v
    case BadConnectionTimeout => "connectionTimeout must be between 1 and 120"
    case BadKeepAliveInterval => "keepAliveInterval must be between 0 and 600"
    case BadKeepAliveMaxFails => "keepAliveMaxFails must be between 1 and 100"
    case BadFontSize => "fontSize must be between 8 and 72"
    case BadCursorStyle => "cursorStyle must be block, underline, or bar"
    case BadScrollbackLines => "scrollbackLines must be between 0 and 100000"
  }

  /** Each violation has its own message, so the error text names the failing check. */
  lemma MessagesDiffer(v: Violation, w: Violation)
    ensures v != w ==> Message(v) != Message(w)
  {
  }

  /** Whether setting `s` satisfies the constraint that violation `v` reports. */
  predicate Holds(s: Settings, v: Violation) {
    match v
    case BadConnectionTimeout => 1 <= s.ssh.connectionTimeout <= 120
    case BadKeepAliveInterval => 0 <= s.ssh.keepAliveInterval <= 600
    case BadKeepAliveMaxFails => 1 <= s.ssh.keepAliveMaxFails <= 100
    case BadFontSize => 8 <= s.terminal.fontSize <= 72
    case BadCursorStyle => s.terminal.cursorStyle in {"block", "underline", "bar"}
    case BadScrollbackLines => 0 <= s.terminal.scrollbackLines <= 100000
  }

  /** The checks in source order. */
  const CheckOrder: seq<Violation> := [
    BadConnectionTimeout, BadKeepAliveInterval, BadKeepAliveMaxFails,
    BadFontSize, BadCursorStyle, BadScrollbackLines]

  /** Every constraint of the settings resource holds. */
  predicate ValidSettings(s: Settings) {
    && Holds(s, BadConnectionTimeout) && Holds(s, BadKeepAliveInterval) && Holds(s, BadKeepAliveMaxFails)
    && Holds(s, BadFontSize) && Holds(s, BadCursorStyle) && Holds(s, BadScrollbackLines)
  }

  /**
   * `Validate`: `None` plays Go's nil error. Otherwise the result is the
   * first check, in source order, that fails; every earlier one passed.
   */
  function Validate(s: Settings): (r: Option<Violation>)
    ensures r.None? <==> ValidSettings(s)
    ensures r.Some? ==> !Holds(s, r.value)
    ensures r.Some? ==> forall i :: 0 <= i < |CheckOrder| && CheckOrder[i] == r.value ==>
                          forall j :: 0 <= j < i ==> Holds(s, CheckOrder[j])
  {
    var ssh := s.ssh;
    if ssh.connectionTimeout < 1 || ssh.connectionTimeout > 120 then Some(BadConnectionTimeout)
    else if ssh.keepAliveInterval < 0 || ssh.keepAliveInterval > 600 then Some(BadKeepAliveInterval)
    else if ssh.keepAliveMaxFails < 1 || ssh.keepAliveMaxFails > 100 then Some(BadKeepAliveMaxFails)
    else
      var term := s.terminal;
      if term.fontSize < 8 || term.fontSize > 72 then Some(BadFontSize)
      else if term.cursorStyle !in {"block", "underline", "bar"} then Some(BadCursorStyle)
      else if term.scrollbackLines < 0 || term.scrollbackLines > 100000 then Some(BadScrollbackLines)
      else None
  }

  /** The defaults pass validation. */
  lemma DefaultsAreValid()
    ensures Validate(DefaultSettings()) == None
  {
    assert "block" in {"block", "underline", "bar"};
  }

  /** The zero value fails, first on the connection timeout. */
  lemma ZeroIsRejected()
    ensures Validate(ZeroSettings()) == Some(BadConnectionTimeout)
  {
  }

  // ---------------------------------------------------------------------
  // The stored document and Load's overlay onto the defaults
  // ---------------------------------------------------------------------

  /**
   * A decoded JSON settings document: a field is `None` when the key is
   * absent (or null), so unmarshalling leaves the target's value in place.
   */
  datatype SSHDoc = SSHDoc(
    connectionTimeout: Option<int>,
    keepAliveInterval: Option<int>,
    keepAliveMaxFails: Option<int>)

  datatype TerminalDoc = TerminalDoc(
    fontSize: Option<int>,
    cursorStyle: Option<string>,
    cursorBlink: Option<bool>,
    scrollbackLines: Option<int>)

  datatype SettingsDoc = SettingsDoc(ssh: Option<SSHDoc>, terminal: Option<TerminalDoc>)

  function Pick<T>(field: Option<T>, current: T): T {
    match field
    case Some(v) => v
    case None => current
  }

  /**
   * `json.Unmarshal(data, &base)`: every key present in the document
   * replaces the field of `base`; every absent key keeps it.
   */
  function Overlay(base: Settings, doc: SettingsDoc): (s: Settings)
    ensures doc.ssh.None? ==> s.ssh == base.ssh
    ensures doc.terminal.None? ==> s.terminal == base.terminal
    ensures doc.ssh.Some? ==>
      && s.ssh.connectionTimeout == Pick(doc.ssh.value.connectionTimeout, base.ssh.connectionTimeout)
      && s.ssh.keepAliveInterval == Pick(doc.ssh.value.keepAliveInterval, base.ssh.keepAliveInterval)
      && s.ssh.keepAliveMaxFails == Pick(doc.ssh.value.keepAliveMaxFails, base.ssh.keepAliveMaxFails)
    ensures doc.terminal.Some? ==>
      && s.terminal.fontSize == Pick(doc.terminal.value.fontSize, base.terminal.fontSize)
      && s.terminal.cursorStyle == Pick(doc.terminal.value.cursorStyle, base.terminal.cursorStyle)
      && s.terminal.cursorBlink == Pick(doc.terminal.value.cursorBlink, base.terminal.cursorBlink)
      && s.terminal.scrollbackLines == Pick(doc.terminal.value.scrollbackLines, base.terminal.scrollbackLines)
  {
    var ssh := match doc.ssh
      case None => base.ssh
      case Some(d) => SSHSettings(
        Pick(d.connectionTimeout, base.ssh.connectionTimeout),
        Pick(d.keepAliveInterval, base.ssh.keepAliveInterval),
        Pick(d.keepAliveMaxFails, base.ssh.keepAliveMaxFails));
    var term := match doc.terminal
      case None => base.terminal
      case Some(d) => TerminalSettings(
        Pick(d.fontSize, base.terminal.fontSize),
        Pick(d.cursorStyle, base.terminal.cursorStyle),
        Pick(d.cursorBlink, base.terminal.cursorBlink),
        Pick(d.scrollbackLines, base.terminal.scrollbackLines));
    Settings(ssh, term)
  }

  /** The document `Save` writes: every field present. */
  function FullDoc(s: Settings): SettingsDoc {
    SettingsDoc(
      Some(SSHDoc(Some(s.ssh.connectionTimeout), Some(s.ssh.keepAliveInterval), Some(s.ssh.keepAliveMaxFails))),
      Some(TerminalDoc(Some(s.terminal.fontSize), Some(s.terminal.cursorStyle),
                       Some(s.terminal.cursorBlink), Some(s.terminal.scrollbackLines))))
  }

  /** What the settings file holds, as far as `Load` can tell. */
  datatype SettingsFile =
    | Missing                    // os.IsNotExist
    | Unreadable                 // any other read error
    | Malformed                  // the bytes do not unmarshal into Settings
    | Stored(doc: SettingsDoc)

  datatype StoreError = ReadFailed | DecodeFailed

  /** `Store.Load`: defaults when there is no file, the overlay when there is one. */
  function Load(file: SettingsFile): (r: Result<Settings, StoreError>)
    ensures file.Missing? ==> r == Ok(DefaultSettings())
    ensures file.Unreadable? ==> r == Err(ReadFailed)
    ensures file.Malformed? ==> r == Err(DecodeFailed)
    ensures file.Stored? ==> r.Ok? && r.value == Overlay(DefaultSettings(), file.doc)
  {
    match file
    case Missing => Ok(DefaultSettings())
    case Unreadable => Err(ReadFailed)
    case Malformed => Err(DecodeFailed)
    case Stored(doc) => Ok(Overlay(DefaultSettings(), doc))
  }

  /** `Store.Save` when the write succeeds: the file holds every field. */
  function Save(s: Settings): (file: SettingsFile)
    ensures file.Stored?
  {
    Stored(FullDoc(s))
  }

  /** A key missing from the stored file reads back as its default. */
  lemma AbsentFieldKeepsDefault(doc: SettingsDoc)
    ensures doc.ssh.None? ==> Load(Stored(doc)).value.ssh == SSHSettings(10, 30, 3)
    ensures doc.terminal.None? ==> Load(Stored(doc)).value.terminal == TerminalSettings(14, "block", true, 1000)
    ensures doc.ssh.Some? && doc.ssh.value.connectionTimeout.None? ==> Load(Stored(doc)).value.ssh.connectionTimeout == 10
    ensures doc.ssh.Some? && doc.ssh.value.keepAliveInterval.None? ==> Load(Stored(doc)).value.ssh.keepAliveInterval == 30
    ensures doc.ssh.Some? && doc.ssh.value.keepAliveMaxFails.None? ==> Load(Stored(doc)).value.ssh.keepAliveMaxFails == 3
    ensures doc.terminal.Some? && doc.terminal.value.fontSize.None? ==> Load(Stored(doc)).value.terminal.fontSize == 14
    ensures doc.terminal.Some? && doc.terminal.value.cursorStyle.None? ==> Load(Stored(doc)).value.terminal.cursorStyle == "block"
    ensures doc.terminal.Some? && doc.terminal.value.cursorBlink.None? ==> Load(Stored(doc)).value.terminal.cursorBlink
    ensures doc.terminal.Some? && doc.terminal.value.scrollbackLines.None? ==> Load(Stored(doc)).value.terminal.scrollbackLines == 1000
  {
  }

  /** Loading what was saved gives back exactly the saved settings. */
  lemma SaveThenLoad(s: Settings)
    ensures Load(Save(s)) == Ok(s)
  {
  }

  /** Laying the same document twice changes nothing more. */
  lemma OverlayIdempotent(base: Settings, doc: SettingsDoc)
    ensures Overlay(Overlay(base, doc), doc) == Overlay(base, doc)
  {
  }
}
