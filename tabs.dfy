/**
 * The tab registry and per-tab connection state machine of the browser
 * client (web/js/terminal.js), as values: a `Registry` holds what the
 * script keeps in module-level variables (the `tabs` dictionary, the id
 * counter, `activeTabId`, `pendingTabId`) and the few page controls the
 * engine drives. One transition function per user action and per socket
 * or timer event gives the registry afterwards. The class in module
 * `Terminal` performs the same steps in place and is proved against
 * these functions.
 *
 * The WebSocket, the xterm.js widget and the timer are flags of a tab.
 * Socket events are addressed by the id of the tab whose `connect()`
 * installed the handlers.
 */
module Tabs {
  import opened Wrappers

  const MaxTabs: nat := 10
  /** How long `connect()` waits for the `connected` frame; hard-coded, not taken from the settings. */
  const ConnectTimeoutMs: nat := 15000
  const NewTabLabel: string := "New Tab"
  const DisconnectedSuffix: string := " [disconnected]"
  /** The red notice written to a terminal whose socket closed while connected. */
  const ClosedNotice: string := "\r\n\U{1b}[31m[Connection closed]\U{1b}[0m\r\n"

  const HostUserRequired: string := "Host and User are required"
  const KeyPathRequired: string := "Key Path is required for SSH Key authentication"
  const MaxTabsReached: string := "Maximum tabs reached"
  const TimedOut: string := "Connection timed out"
  const SocketFailed: string := "WebSocket connection failed"

  datatype TabState = Form | Connecting | Connected | Disconnected

  /** The parameters of the last successful connect, kept for "duplicate tab". */
  datatype ConnInfo = ConnInfo(host: string, port: int, user: string, authType: string, keyPath: string)

  /** The values one `connect()` call read from the form and its socket handlers captured. */
  datatype Attempt = Attempt(
    host: string, port: int, user: string, authType: string,
    password: string, keyPath: string, passphrase: string)

  datatype Tab = Tab(
    title: string,               // the tab's label
    state: TabState,
    hasSocket: bool,            // tab.ws !== null
    socketOpen: bool,           // tab.ws.readyState === WebSocket.OPEN
    timerArmed: bool,           // the timer in tab.connectTimeout is pending
    staleTimers: nat,           // earlier connect timers whose id a later connect() overwrote
    attempt: Option<Attempt>,   // None until connect() installed socket handlers
    connInfo: Option<ConnInfo>,
    hasTerm: bool,              // a live terminal widget
    written: seq<string>)       // what was written to that widget

  /** The record `createTab` inserts. */
  function NewTab(): (t: Tab)
    ensures t.title == NewTabLabel && t.state == Form && t.written == []
    ensures !t.hasSocket && !t.timerArmed && t.staleTimers == 0
    ensures t.attempt.None? && t.connInfo.None? && !t.hasTerm
    ensures TabOk(t)
  {
    Tab(NewTabLabel, Form, false, false, false, 0, None, None, false, [])
  }

  /**
   * The engine's state. `detached` holds closed tabs: their socket keeps
   * its `onmessage` and `onerror` handlers, which still reach the record.
   * The last five fields are the page controls: the connection status
   * text, whether the disconnect button is enabled, whether the new-tab
   * button is shown, the error message shown (if any), and whether the
   * connect button is enabled.
   */
  datatype Registry = Registry(
    tabs: map<nat, Tab>,
    detached: map<nat, Tab>,
    counter: nat,
    active: Option<nat>,
    pending: Option<nat>,
    statusText: string,
    disconnectEnabled: bool,
    newTabVisible: bool,
    error: Option<string>,
    connectEnabled: bool)

  /** The page as loaded: no tabs, nothing active or pending. */
  function Initial(): (r: Registry)
    ensures Valid(r) && r.tabs == map[] && r.detached == map[] && r.counter == 0
    ensures r.active.None? && r.pending.None?
    ensures r.statusText == "" && !r.disconnectEnabled && r.newTabVisible
    ensures r.error.None? && r.connectEnabled
  {
    Registry(map[], map[], 0, None, None, "", false, true, None, true)
  }

  // ---------------------------------------------------------------------
  // Invariants
  // ---------------------------------------------------------------------

  /** Facts every tab record keeps, live or closed. */
  predicate TabOk(t: Tab) {
    && (t.socketOpen ==> t.hasSocket)
    && (t.hasSocket ==> t.attempt.Some?)
    && (t.timerArmed ==> t.attempt.Some?)
    && (t.state == Connecting || t.state == Connected ==> t.attempt.Some?)
    && (t.connInfo.Some? ==> t.attempt.Some?)
    && (t.hasTerm ==> t.connInfo.Some?)
  }

  /** The registry invariant, apart from the new-tab button. */
  predicate Core(r: Registry) {
    && |r.tabs| <= MaxTabs
    && (forall id :: id in r.tabs ==> 1 <= id <= r.counter && id !in r.detached && TabOk(r.tabs[id]))
    && (forall id :: id in r.detached ==> 1 <= id <= r.counter && TabOk(r.detached[id]))
    && (r.active.Some? ==> r.active.value in r.tabs)
    && (r.pending.Some? ==> r.pending.value in r.tabs)
  }

  /**
   * At most ten tabs; ids come from the counter and a closed id stays
   * closed; active and pending name live tabs; the new-tab button is
   * shown exactly below capacity.
   */
  predicate Valid(r: Registry) {
    Core(r) && r.newTabVisible == (|r.tabs| < MaxTabs)
  }

  /** Same tab records, counter, active and pending tab. */
  predicate SameTabs(r: Registry, r': Registry) {
    r'.tabs == r.tabs && r'.detached == r.detached && r'.counter == r.counter &&
    r'.active == r.active && r'.pending == r.pending
  }

  // ---------------------------------------------------------------------
  // Projections
  // ---------------------------------------------------------------------

  /**
   * The status line and disconnect button `switchTab` shows for a tab:
   * the label and an enabled button when connected, the label with the
   * disconnected suffix and a disabled button when disconnected, and an
   * empty line and a disabled button otherwise.
   */
  function Status(t: Tab): (p: (string, bool))
    ensures p.1 <==> t.state == Connected
    ensures p.0 == "" <== t.state == Form || t.state == Connecting
    ensures t.state == Connected ==> p.0 == t.title
    ensures t.state == Disconnected ==> p.0 == t.title + DisconnectedSuffix
  {
    match t.state
    case Connected => (t.title, true)
    case Disconnected => (t.title + DisconnectedSuffix, false)
    case _ => ("", false)
  }

  /** `renderTabBar`: the new-tab button follows the tab count. */
  function Render(r: Registry): (r': Registry)
    ensures Core(r) ==> Valid(r')
    ensures r' == r.(newTabVisible := |r.tabs| < MaxTabs)
  {
    r.(newTabVisible := |r.tabs| < MaxTabs)
  }

  /** `showConnectFormOverlay`: the connect button is reset and the error hidden. */
  function ShowConnectForm(r: Registry): (r': Registry)
    ensures r' == r.(connectEnabled := true, error := None)
    ensures Valid(r) ==> Valid(r')
  {
    r.(connectEnabled := true, error := None)
  }

  // ---------------------------------------------------------------------
  // The registry actions
  // ---------------------------------------------------------------------

  /**
   * `createTab`: refused (no change) at ten tabs; otherwise a fresh
   * `New Tab` record in the form state under the next counter value, with
   * the active tab left alone.
   */
  function CreateTab(r: Registry): (res: (Registry, Option<nat>))
    requires Core(r)
    ensures res.1.None? <==> |r.tabs| >= MaxTabs
    ensures res.1.None? ==> res.0 == r
    ensures res.1.Some? ==>
      var id := res.1.value;
      && id == r.counter + 1 && res.0.counter == id
      && (forall k :: k in r.tabs || k in r.detached ==> k < id)
      && res.0.tabs == r.tabs[id := NewTab()] && |res.0.tabs| == |r.tabs| + 1
      && res.0.detached == r.detached && res.0.active == r.active && res.0.pending == r.pending
    ensures Valid(res.0) || res.1.None?
    ensures Valid(r) ==> Valid(res.0)
    ensures res.0.error == r.error && res.0.connectEnabled == r.connectEnabled
    ensures res.0.statusText == r.statusText && res.0.disconnectEnabled == r.disconnectEnabled
  {
    if |r.tabs| >= MaxTabs then (r, None)
    else
      var id := r.counter + 1;
      (Render(r.(counter := id, tabs := r.tabs[id := NewTab()])), Some(id))
  }

  /**
   * `switchTab`: nothing for an unknown or already active id; otherwise
   * the tab becomes active and the status line and disconnect button
   * follow its state.
   */
  function SwitchTab(r: Registry, id: nat): (r': Registry)
    ensures id !in r.tabs || r.active == Some(id) ==> r' == r
    ensures id in r.tabs && r.active != Some(id) ==>
      && r'.active == Some(id)
      && (r'.statusText, r'.disconnectEnabled) == Status(r.tabs[id])
      && r'.tabs == r.tabs && r'.detached == r.detached && r'.counter == r.counter && r'.pending == r.pending
      && r'.error == r.error && r'.connectEnabled == r.connectEnabled
      && Render(r').newTabVisible == r'.newTabVisible
    ensures Core(r) && id in r.tabs && r.active != Some(id) ==> Valid(r')
    ensures Valid(r) ==> Valid(r')
  {
    if id !in r.tabs || r.active == Some(id) then r
    else
      var (text, enabled) := Status(r.tabs[id]);
      Render(r.(active := Some(id), statusText := text, disconnectEnabled := enabled))
  }

  /** The largest key of `keys` that is at most `n`, scanning down from `n`. */
  function LargestUpTo(keys: set<nat>, n: nat): (r: Option<nat>)
    ensures r.Some? ==> r.value in keys && r.value <= n
    ensures r.Some? ==> forall k :: k in keys && k <= n ==> k <= r.value
    ensures r.None? <==> forall k :: k in keys ==> k > n
    decreases n
  {
    if n in keys then Some(n)
    else if n == 0 then None
    else LargestUpTo(keys, n - 1)
  }

  /**
   * A closed tab: timer cleared, `onclose` detached and socket closing,
   * widget disposed. `clearTimeout` reaches only the timer whose id
   * `tab.connectTimeout` holds, so stale timers stay pending.
   */
  function Closed(t: Tab): (c: Tab)
    ensures !c.timerArmed && !c.socketOpen && !c.hasTerm
    ensures c.state == t.state && c.title == t.title && c.connInfo == t.connInfo && c.attempt == t.attempt
    ensures c.hasSocket == t.hasSocket && c.written == t.written && c.staleTimers == t.staleTimers
    ensures TabOk(t) ==> TabOk(c)
  {
    t.(timerArmed := false, socketOpen := false, hasTerm := false)
  }

  /** Removing one key from a map removes one from its size. */
  lemma RemoveOneKey<V>(m: map<nat, V>, k: nat)
    requires k in m
    ensures |m - {k}| == |m| - 1
  {
    assert (m - {k}).Keys == m.Keys - {k};
  }

  /**
   * The first part of `closeTab`: the record leaves `tabs` (kept, closed,
   * in `detached`), and the pending and active markers that named it are
   * cleared.
   */
  function Detach(r: Registry, id: nat): (r': Registry)
    requires Valid(r) && id in r.tabs
    ensures r'.tabs == r.tabs - {id} && |r'.tabs| == |r.tabs| - 1
    ensures r'.detached == r.detached[id := Closed(r.tabs[id])] && r'.counter == r.counter
    ensures r'.pending == (if r.pending == Some(id) then None else r.pending)
    ensures r'.active == (if r.active == Some(id) then None else r.active)
    ensures r'.statusText == r.statusText && r'.disconnectEnabled == r.disconnectEnabled
    ensures r'.error == r.error && r'.connectEnabled == r.connectEnabled
  {
    RemoveOneKey(r.tabs, id);
    r.(tabs := r.tabs - {id}, detached := r.detached[id := Closed(r.tabs[id])],
       pending := if r.pending == Some(id) then None else r.pending,
       active := if r.active == Some(id) then None else r.active)
  }

  /** The closed tab keeps its id out of `tabs` for good, so the invariant survives `Detach`. */
  lemma DetachKeepsCore(r: Registry, id: nat)
    requires Valid(r) && id in r.tabs
    ensures Core(Detach(r, id))
  {
    var d := Detach(r, id);
    forall k | k in d.tabs
      ensures 1 <= k <= d.counter && k !in d.detached && TabOk(d.tabs[k])
    {
      assert k in r.tabs && k != id;
    }
    forall k | k in d.detached
      ensures 1 <= k <= d.counter && TabOk(d.detached[k])
    {
      if k != id {
        assert k in r.detached;
      }
    }
  }

  /**
   * `closeTab`: nothing for an unknown id. Otherwise the tab goes, pending
   * is cleared if it was that tab, and then: with no tab left nothing is
   * active and the initial screen resets the connect button; if the
   * active tab went, the largest remaining id becomes active (the last of
   * `Object.keys`, which lists integer keys in ascending order); if
   * another tab went, the active tab stays.
   */
  function CloseTab(r: Registry, id: nat): (r': Registry)
    requires Valid(r)
    ensures Valid(r')
    ensures id !in r.tabs ==> r' == r
    ensures id in r.tabs ==>
      && r'.tabs == r.tabs - {id} && |r'.tabs| == |r.tabs| - 1
      && r'.detached == r.detached[id := Closed(r.tabs[id])]
      && r'.counter == r.counter && r'.error == r.error
      && r'.pending == (if r.pending == Some(id) then None else r.pending)
    ensures id in r.tabs && |r.tabs| == 1 ==>
      && r'.active.None? && r'.connectEnabled
      && r'.statusText == r.statusText && r'.disconnectEnabled == r.disconnectEnabled
    ensures id in r.tabs && |r.tabs| > 1 ==> r'.connectEnabled == r.connectEnabled
    ensures id in r.tabs && |r.tabs| > 1 && r.active == Some(id) ==>
      && r'.active.Some? && r'.active.value in r'.tabs
      && (forall k :: k in r'.tabs ==> k <= r'.active.value)
      && (r'.statusText, r'.disconnectEnabled) == Status(r'.tabs[r'.active.value])
    ensures id in r.tabs && |r.tabs| > 1 && r.active != Some(id) ==>
      r'.active == r.active && r'.statusText == r.statusText && r'.disconnectEnabled == r.disconnectEnabled
  {
    if id !in r.tabs then r
    else
      var r2 := Detach(r, id);
      DetachKeepsCore(r, id);
      if |r2.tabs| == 0 then r2.(connectEnabled := true)
      else if r.active == Some(id) then
        var next := LargestUpTo(r2.tabs.Keys, r.counter);
        SwitchTab(r2, next.value)
      else Render(r2)
  }

  /** `requestNewTab`: a fresh tab becomes pending and active and the connect form opens. */
  function RequestNewTab(r: Registry): (r': Registry)
    requires Valid(r)
    ensures Valid(r')
    ensures |r.tabs| >= MaxTabs ==> r' == r
    ensures |r.tabs| < MaxTabs ==>
      var id := r.counter + 1;
      && r'.tabs == r.tabs[id := NewTab()] && r'.counter == id && r'.detached == r.detached
      && r'.pending == Some(id) && r'.active == Some(id)
      && r'.statusText == "" && !r'.disconnectEnabled
      && r'.connectEnabled && r'.error.None?
  {
    var (r1, created) := CreateTab(r);
    match created
    case None => r
    case Some(id) => ShowConnectForm(SwitchTab(r1.(pending := Some(id)), id))
  }

  /** `cancelNewTab`: the pending tab, if any, is closed. */
  function CancelNewTab(r: Registry): (r': Registry)
    requires Valid(r)
    ensures Valid(r') && r'.pending.None?
    ensures r.pending.None? ==> r' == r
    ensures r.pending.Some? ==>
      var p := r.pending.value;
      && p in r.tabs && r'.tabs == r.tabs - {p}
      && r'.detached == r.detached[p := Closed(r.tabs[p])]
      && r'.counter == r.counter && r'.error == r.error
    ensures r.pending.Some? && |r.tabs| == 1 ==>
      && r'.active.None? && r'.connectEnabled
      && r'.statusText == r.statusText && r'.disconnectEnabled == r.disconnectEnabled
    ensures r.pending.Some? && |r.tabs| > 1 && r.active == r.pending ==>
      && r'.active.Some? && r'.active.value in r'.tabs
      && (forall k :: k in r'.tabs ==> k <= r'.active.value)
      && (r'.statusText, r'.disconnectEnabled) == Status(r'.tabs[r'.active.value])
      && r'.connectEnabled == r.connectEnabled
    ensures r.pending.Some? && |r.tabs| > 1 && r.active != r.pending ==>
      && r'.active == r.active && r'.statusText == r.statusText
      && r'.disconnectEnabled == r.disconnectEnabled && r'.connectEnabled == r.connectEnabled
  {
    match r.pending
    case None => r
    case Some(p) => CloseTab(r.(pending := None), p)
  }

  // ---------------------------------------------------------------------
  // connect(): form validation and socket set-up
  // ---------------------------------------------------------------------

  /** The characters `String.prototype.trim` strips: ECMAScript WhiteSpace and LineTerminator. */
  predicate IsSpace(c: char)
    ensures c in {' ', '\t', '\n', '\r'} ==> IsSpace(c)
    ensures 'a' <= c <= 'z' || 'A' <= c <= 'Z' || '0' <= c <= '9' ==> !IsSpace(c)
  {
    c in {'\t', '\n', '\U{0b}', '\U{0c}', '\r', ' ', '\U{a0}', '\U{1680}', '\U{2028}', '\U{2029}',
          '\U{202f}', '\U{205f}', '\U{3000}', '\U{feff}'}
    || '\U{2000}' <= c <= '\U{200a}'
  }

  /** The end of the run of white space in `s` that starts at `i`. */
  function SpacesFrom(s: string, i: nat): (j: nat)
    requires i <= |s|
    ensures i <= j <= |s|
    ensures forall k :: i <= k < j ==> IsSpace(s[k])
    ensures j == |s| || !IsSpace(s[j])
    decreases |s| - i
  {
    if i < |s| && IsSpace(s[i]) then SpacesFrom(s, i + 1) else i
  }

  /** The start of the run of white space in `s` that ends at `j`, going no lower than `lo`. */
  function SpacesDownTo(s: string, lo: nat, j: nat): (i: nat)
    requires lo <= j <= |s|
    ensures lo <= i <= j
    ensures forall k :: i <= k < j ==> IsSpace(s[k])
    ensures i == lo || !IsSpace(s[i - 1])
  {
    if lo < j && IsSpace(s[j - 1]) then SpacesDownTo(s, lo, j - 1) else j
  }

  /**
   * `String.prototype.trim`: the part of `s` between its leading and its
   * trailing white space.
   */
  function Trim(s: string): (r: string)
    ensures exists i, j :: (
      && 0 <= i <= j <= |s| && r == s[i..j]
      && (forall k :: 0 <= k < i ==> IsSpace(s[k]))
      && (forall k :: j <= k < |s| ==> IsSpace(s[k])))
    ensures r == [] || (!IsSpace(r[0]) && !IsSpace(r[|r| - 1]))
    ensures r == [] <==> forall i :: 0 <= i < |s| ==> IsSpace(s[i])
  {
    var i := SpacesFrom(s, 0);
    var j := SpacesDownTo(s, i, |s|);
    assert forall k :: j <= k < |s| ==> IsSpace(s[k]);
    s[i..j]
  }

  /** `parseInt(field) || 22`: `parsed` is `None` when the field does not parse (NaN). */
  function PortOrDefault(parsed: Option<int>): (port: int)
    ensures port != 0
    ensures parsed.Some? && parsed.value != 0 ==> port == parsed.value
    ensures parsed.None? || parsed.value == 0 ==> port == 22
  {
    match parsed
    case Some(p) => if p == 0 then 22 else p
    case None => 22
  }

  /** The connect form's fields as `connect()` reads them (before trimming). */
  datatype FormInput = FormInput(
    host: string, port: Option<int>, user: string, authType: string,
    password: string, keyPath: string, passphrase: string)

  /** The trimmed values `connect()` works with. */
  function AttemptOf(form: FormInput): (a: Attempt)
    ensures a.host == Trim(form.host) && a.user == Trim(form.user) && a.keyPath == Trim(form.keyPath)
    ensures a.password == form.password && a.passphrase == form.passphrase && a.authType == form.authType
    ensures a.port == PortOrDefault(form.port)
  {
    Attempt(Trim(form.host), PortOrDefault(form.port), Trim(form.user), form.authType,
            form.password, Trim(form.keyPath), form.passphrase)
  }

  /** The validation error `connect()` reports before touching any tab, if any. */
  function FormError(a: Attempt): (e: Option<string>)
    ensures e.None? <==> a.host != "" && a.user != "" && (a.authType == "key" ==> a.keyPath != "")
    ensures a.host == "" || a.user == "" ==> e == Some(HostUserRequired)
    ensures a.host != "" && a.user != "" && a.authType == "key" && a.keyPath == "" ==> e == Some(KeyPathRequired)
  {
    if a.host == "" || a.user == "" then Some(HostUserRequired)
    else if a.authType == "key" && a.keyPath == "" then Some(KeyPathRequired)
    else None
  }

  /**
   * The record `connect()` leaves: labelled `user@host`, in the
   * connecting state, with a new (not yet open) socket, the connect timer
   * armed and the socket handlers installed. A timer still pending from
   * an earlier `connect()` loses its id to the new one and becomes stale.
   */
  function Launched(t: Tab, a: Attempt): (t': Tab)
    ensures t'.title == a.user + "@" + a.host && t'.state == Connecting && t'.attempt == Some(a)
    ensures t'.hasSocket && !t'.socketOpen && t'.timerArmed
    ensures t'.staleTimers == (if t.timerArmed then t.staleTimers + 1 else t.staleTimers)
    ensures t'.connInfo == t.connInfo && t'.hasTerm == t.hasTerm && t'.written == t.written
    ensures TabOk(t) ==> TabOk(t')
  {
    t.(title := a.user + "@" + a.host, state := Connecting, hasSocket := true, socketOpen := false,
       timerArmed := true, staleTimers := if t.timerArmed then t.staleTimers + 1 else t.staleTimers,
       attempt := Some(a))
  }

  /** Tab `id` starts connecting. */
  function Launch(r: Registry, id: nat, a: Attempt): (r': Registry)
    requires id in r.tabs
    ensures r'.tabs == r.tabs[id := Launched(r.tabs[id], a)]
    ensures r'.detached == r.detached && r'.counter == r.counter && r'.active == r.active && r'.pending == r.pending
    ensures r'.error == r.error && r'.connectEnabled == r.connectEnabled
    ensures r'.statusText == r.statusText && r'.disconnectEnabled == r.disconnectEnabled
    ensures Core(r) ==> Valid(r')
  {
    var t := r.tabs[id];
    Render(r.(tabs := r.tabs[id := Launched(t, a)]))
  }

  /**
   * The branch of `connect()` without a pending tab: a new tab is created
   * and made pending, then starts connecting; with ten tabs open
   * "Maximum tabs reached" is shown and the connect button re-enabled.
   */
  function LaunchOnNewTab(r: Registry, a: Attempt): (r': Registry)
    requires Valid(r) && r.pending.None?
    ensures Valid(r')
    ensures |r.tabs| >= MaxTabs ==>
      SameTabs(r, r') && r'.error == Some(MaxTabsReached) && r'.connectEnabled
    ensures |r.tabs| < MaxTabs ==>
      && r'.pending == Some(r.counter + 1) && r'.counter == r.counter + 1
      && r'.tabs == r.tabs[r.counter + 1 := Launched(NewTab(), a)]
      && r'.active == r.active && r'.error == r.error && r'.connectEnabled == r.connectEnabled
      && r'.statusText == r.statusText && r'.disconnectEnabled == r.disconnectEnabled
  {
    var (r2, created) := CreateTab(r);
    match created
    case None => r2.(error := Some(MaxTabsReached), connectEnabled := true)
    case Some(id) =>
      var r3 := r2.(pending := Some(id));
      assert Core(r3);
      Launch(r3, id, a)
  }

  /**
   * `connect()` past validation: the error is hidden and the connect button
   * disabled; the pending tab, or a new one made pending, starts
   * connecting.
   */
  function StartAttempt(r: Registry, a: Attempt): (r': Registry)
    requires Valid(r)
    ensures Valid(r')
    ensures r.pending.None? && |r.tabs| >= MaxTabs ==>
      SameTabs(r, r') && r'.error == Some(MaxTabsReached) && r'.connectEnabled
    ensures r.pending.Some? ==>
      var p := r.pending.value;
      && r'.tabs == r.tabs[p := Launched(r.tabs[p], a)]
      && r'.pending == r.pending && r'.counter == r.counter
    ensures r.pending.None? && |r.tabs| < MaxTabs ==>
      && r'.tabs == r.tabs[r.counter + 1 := Launched(NewTab(), a)]
      && r'.pending == Some(r.counter + 1) && r'.counter == r.counter + 1
    ensures r.pending.Some? || |r.tabs| < MaxTabs ==>
      && r'.active == r.active && r'.error.None? && !r'.connectEnabled
      && r'.statusText == r.statusText && r'.disconnectEnabled == r.disconnectEnabled
  {
    var r1 := r.(error := None, connectEnabled := false);
    match r1.pending
    case Some(p) => Launch(r1, p, a)
    case None => LaunchOnNewTab(r1, a)
  }

  /**
   * `connect()`: a form error is shown and nothing else changes; a valid
   * form starts an attempt.
   */
  function Connect(r: Registry, form: FormInput): (r': Registry)
    requires Valid(r)
    ensures Valid(r')
    ensures FormError(AttemptOf(form)).Some? ==> r' == r.(error := FormError(AttemptOf(form)))
    ensures FormError(AttemptOf(form)).None? ==> r' == StartAttempt(r, AttemptOf(form))
  {
    var a := AttemptOf(form);
    match FormError(a)
    case Some(message) => r.(error := Some(message))
    case None => StartAttempt(r, a)
  }

  // ---------------------------------------------------------------------
  // Socket, frame and timer events
  // ---------------------------------------------------------------------

  /** How the password or the key travels in a `connect` frame: one or the other. */
  datatype Credential = PasswordCred(password: string) | KeyCred(keyPath: string, passphrase: string)

  /** The frames the client sends. */
  datatype Frame =
    | ConnectFrame(host: string, port: int, user: string, authType: string, cred: Credential)
    | InputFrame(data: string)
    | ResizeFrame(cols: int, rows: int)

  /**
   * The `connect` frame `onopen` sends: key path and passphrase for key
   * authentication, the password for anything else, never both.
   */
  function ConnectFrameOf(a: Attempt): (f: Frame)
    ensures f.ConnectFrame? && f.host == a.host && f.port == a.port && f.user == a.user && f.authType == a.authType
    ensures f.cred.KeyCred? <==> a.authType == "key"
    ensures f.cred.KeyCred? ==> f.cred == KeyCred(a.keyPath, a.passphrase)
    ensures f.cred.PasswordCred? ==> f.cred == PasswordCred(a.password)
  {
    var cred := if a.authType == "key" then KeyCred(a.keyPath, a.passphrase) else PasswordCred(a.password);
    ConnectFrame(a.host, a.port, a.user, a.authType, cred)
  }

  /** The record the socket handlers of tab `id` act on, live or closed, if `connect()` installed them. */
  function Handled(r: Registry, id: nat): (t: Option<Tab>)
    ensures t.Some? <==> (id in r.tabs && r.tabs[id].attempt.Some?)
                         || (id !in r.tabs && id in r.detached && r.detached[id].attempt.Some?)
    ensures t.Some? ==> t.value.attempt.Some?
    ensures t.Some? && id in r.tabs ==> t.value == r.tabs[id]
    ensures t.Some? && id !in r.tabs ==> t.value == r.detached[id]
    ensures t.Some? ==> id in r.tabs || id in r.detached
  {
    if id in r.tabs && r.tabs[id].attempt.Some? then Some(r.tabs[id])
    else if id !in r.tabs && id in r.detached && r.detached[id].attempt.Some? then Some(r.detached[id])
    else None
  }

  /** Stores `t` back where record `id` lives. */
  function Store(r: Registry, id: nat, t: Tab): (r': Registry)
    requires id in r.tabs || id in r.detached
    ensures r'.tabs.Keys == r.tabs.Keys && r'.detached.Keys == r.detached.Keys
    ensures id in r.tabs ==> r'.tabs == r.tabs[id := t] && r'.detached == r.detached
    ensures id !in r.tabs ==> r'.detached == r.detached[id := t] && r'.tabs == r.tabs
    ensures r'.counter == r.counter && r'.active == r.active && r'.pending == r.pending
    ensures r'.statusText == r.statusText && r'.disconnectEnabled == r.disconnectEnabled
    ensures r'.newTabVisible == r.newTabVisible && r'.error == r.error && r'.connectEnabled == r.connectEnabled
    ensures Valid(r) && TabOk(t) ==> Valid(r')
  {
    if id in r.tabs then r.(tabs := r.tabs[id := t]) else r.(detached := r.detached[id := t])
  }

  /** `onopen`: the socket is open and the `connect` frame goes out, unless `tab.ws` was already dropped. */
  function OnOpen(r: Registry, id: nat): (res: (Registry, Option<Frame>))
    requires Valid(r)
    ensures Valid(res.0)
    ensures res.1.Some? <==> id in r.tabs && r.tabs[id].hasSocket
    ensures res.1.Some? ==> res.1.value == ConnectFrameOf(r.tabs[id].attempt.value)
    ensures res.1.Some? ==> res.0 == r.(tabs := r.tabs[id := r.tabs[id].(socketOpen := true)])
    ensures res.1.None? ==> res.0 == r
  {
    if id in r.tabs && r.tabs[id].hasSocket then
      var t := r.tabs[id];
      (r.(tabs := r.tabs[id := t.(socketOpen := true)]), Some(ConnectFrameOf(t.attempt.value)))
    else (r, None)
  }

  /**
   * A `connected` frame: the timer is cleared, the tab is connected with a
   * snapshot of the parameters and a new terminal, the pending marker is
   * cleared whichever tab it named, and the tab is switched to. A
   * closed tab's record changes the same way, but it is not switched to.
   */
  function OnConnected(r: Registry, id: nat): (r': Registry)
    ensures Handled(r, id).None? ==> r' == r
    ensures Handled(r, id).Some? ==> r'.pending.None? && r'.counter == r.counter
    ensures Handled(r, id).Some? && id in r.tabs ==>
      var a := r.tabs[id].attempt.value;
      && r'.tabs == r.tabs[id := r.tabs[id].(timerArmed := false, state := Connected,
                                             connInfo := Some(ConnInfo(a.host, a.port, a.user, a.authType, a.keyPath)),
                                             hasTerm := true, written := [])]
      && r'.active == Some(id)
      && (r.active != Some(id) ==>
            (r'.statusText, r'.disconnectEnabled) == Status(r'.tabs[id]) && r'.newTabVisible == (|r.tabs| < MaxTabs))
      && (r.active == Some(id) ==>
            r'.statusText == r.statusText && r'.disconnectEnabled == r.disconnectEnabled && r'.newTabVisible == r.newTabVisible)
    ensures Handled(r, id).Some? ==> r'.error == r.error && r'.connectEnabled == r.connectEnabled
    ensures Handled(r, id).Some? && id in r.tabs ==> r'.detached == r.detached
    ensures Handled(r, id).Some? && id !in r.tabs ==>
      var t := r.detached[id];
      var a := t.attempt.value;
      r' == r.(detached := r.detached[id := t.(timerArmed := false, state := Connected,
                                               connInfo := Some(ConnInfo(a.host, a.port, a.user, a.authType, a.keyPath)),
                                               hasTerm := true, written := [])],
               pending := None)
  {
    match Handled(r, id)
    case None => r
    case Some(t) =>
      var a := t.attempt.value;
      var t' := t.(timerArmed := false, state := Connected,
                   connInfo := Some(ConnInfo(a.host, a.port, a.user, a.authType, a.keyPath)),
                   hasTerm := true, written := []);
      SwitchTab(Store(r, id, t').(pending := None), id)
  }

  /** A `connected` frame keeps the registry invariant. */
  lemma ConnectedKeepsValid(r: Registry, id: nat)
    requires Valid(r)
    ensures Valid(OnConnected(r, id))
  {
    match Handled(r, id)
    case None =>
    case Some(t) =>
      var a := t.attempt.value;
      var t' := t.(timerArmed := false, state := Connected,
                   connInfo := Some(ConnInfo(a.host, a.port, a.user, a.authType, a.keyPath)),
                   hasTerm := true, written := []);
      assert TabOk(t);
      var r1 := Store(r, id, t').(pending := None);
      assert Valid(r1);
  }

  /** An `output` frame: its text is written to the tab's terminal, if it has one. */
  function OnOutput(r: Registry, id: nat, data: string): (r': Registry)
    ensures Valid(r) ==> Valid(r')
    ensures Handled(r, id).Some? && Handled(r, id).value.hasTerm ==>
      var t := Handled(r, id).value;
      r' == Store(r, id, t.(written := t.written + [data]))
    ensures r'.tabs.Keys == r.tabs.Keys && r'.active == r.active && r'.pending == r.pending
    ensures forall k :: k in r.tabs ==> r'.tabs[k].state == r.tabs[k].state
    ensures Handled(r, id).None? || !Handled(r, id).value.hasTerm ==> r' == r
  {
    match Handled(r, id)
    case Some(t) =>
      if t.hasTerm then Store(r, id, t.(written := t.written + [data])) else r
    case None => r
  }

  /**
   * An `error` frame: the timer is cleared, the message shown, the connect
   * button reset and the tab back in the form state, whatever state it was
   * in. The socket is neither closed nor dropped.
   */
  function OnErrorFrame(r: Registry, id: nat, message: string): (r': Registry)
    ensures Valid(r) ==> Valid(r')
    ensures Handled(r, id).None? ==> r' == r
    ensures Handled(r, id).Some? ==>
      var t := Handled(r, id).value;
      && r' == Store(r, id, t.(timerArmed := false, state := Form)).(error := Some(message), connectEnabled := true)
      && Handled(r', id).value.hasSocket == t.hasSocket && Handled(r', id).value.socketOpen == t.socketOpen
  {
    match Handled(r, id)
    case None => r
    case Some(t) =>
      Store(r, id, t.(timerArmed := false, state := Form)).(error := Some(message), connectEnabled := true)
  }

  /**
   * What the socket's `close` handler does to its tab: the timer is
   * cleared and the socket is closed; only a connected tab changes state,
   * to disconnected, with the closed notice written to its terminal.
   */
  function ClosedSocket(t: Tab): (t': Tab)
    ensures !t'.timerArmed && !t'.socketOpen && t'.hasSocket == t.hasSocket
    ensures t'.state == (if t.state == Connected then Disconnected else t.state)
    ensures t'.written == (if t.state == Connected && t.hasTerm then t.written + [ClosedNotice] else t.written)
    ensures t'.title == t.title && t'.connInfo == t.connInfo && t'.attempt == t.attempt && t'.hasTerm == t.hasTerm
    ensures TabOk(t) ==> TabOk(t')
  {
    var t1 := t.(timerArmed := false, socketOpen := false);
    if t.state == Connected then
      t1.(state := Disconnected, written := if t.hasTerm then t.written + [ClosedNotice] else t.written)
    else t1
  }

  /**
   * The socket's `close` event (its handler is detached when the tab is
   * closed): the tab's record becomes `ClosedSocket` of it, so a tab
   * still connecting stays connecting; the status line changes only when
   * the active tab goes from connected to disconnected.
   */
  function OnClose(r: Registry, id: nat): (r': Registry)
    ensures Valid(r) ==> Valid(r')
    ensures id !in r.tabs || r.tabs[id].attempt.None? ==> r' == r
    ensures id in r.tabs && r.tabs[id].attempt.Some? ==>
      && r'.tabs == r.tabs[id := ClosedSocket(r.tabs[id])]
      && r'.detached == r.detached && r'.counter == r.counter
      && r'.active == r.active && r'.pending == r.pending
      && r'.error == r.error && r'.connectEnabled == r.connectEnabled
    ensures id in r.tabs && r.tabs[id].attempt.Some? && r.tabs[id].state == Connected && r.active == Some(id) ==>
      r'.statusText == r.tabs[id].title + DisconnectedSuffix && !r'.disconnectEnabled
    ensures id in r.tabs && (r.tabs[id].state != Connected || r.active != Some(id)) ==>
      r'.statusText == r.statusText && r'.disconnectEnabled == r.disconnectEnabled
  {
    if id !in r.tabs || r.tabs[id].attempt.None? then r
    else
      var t := r.tabs[id];
      var r1 := r.(tabs := r.tabs[id := ClosedSocket(t)]);
      if t.state == Connected && r.active == Some(id) then
        r1.(statusText := t.title + DisconnectedSuffix, disconnectEnabled := false)
      else r1
  }

  /** The socket's `error` event: the timer is cleared; a connecting tab goes back to the form with an error. */
  function OnSocketError(r: Registry, id: nat): (r': Registry)
    ensures Valid(r) ==> Valid(r')
    ensures Handled(r, id).None? ==> r' == r
    ensures Handled(r, id).Some? ==>
      var t := Handled(r, id).value;
      && Handled(r', id).Some? && !Handled(r', id).value.timerArmed
      && Handled(r', id).value.state == (if t.state == Connecting then Form else t.state)
      && (t.state == Connecting ==> r'.error == Some(SocketFailed) && r'.connectEnabled)
      && (t.state != Connecting ==> r'.error == r.error && r'.connectEnabled == r.connectEnabled)
      && r'.active == r.active && r'.pending == r.pending
    ensures Handled(r, id).Some? && Handled(r, id).value.state == Connecting ==>
      r' == Store(r, id, Handled(r, id).value.(timerArmed := false, state := Form))
              .(error := Some(SocketFailed), connectEnabled := true)
    ensures Handled(r, id).Some? && Handled(r, id).value.state != Connecting ==>
      r' == Store(r, id, Handled(r, id).value.(timerArmed := false))
  {
    match Handled(r, id)
    case None => r
    case Some(t) =>
      if t.state == Connecting then
        Store(r, id, t.(timerArmed := false, state := Form)).(error := Some(SocketFailed), connectEnabled := true)
      else Store(r, id, t.(timerArmed := false))
  }

  /**
   * The connect timer fires, `ConnectTimeoutMs` after `connect()` armed
   * it (only a live tab's timer can: closing clears it): the socket is
   * closed and dropped, the timeout shown, the connect button reset and
   * the tab back in the form state.
   */
  function OnTimeout(r: Registry, id: nat): (r': Registry)
    ensures Valid(r) ==> Valid(r')
    ensures id !in r.tabs || !r.tabs[id].timerArmed ==> r' == r
    ensures id in r.tabs && r.tabs[id].timerArmed ==>
      r' == r.(tabs := r.tabs[id := r.tabs[id].(state := Form, hasSocket := false, socketOpen := false, timerArmed := false)],
               error := Some(TimedOut), connectEnabled := true)
  {
    if id !in r.tabs || !r.tabs[id].timerArmed then r
    else
      var t := r.tabs[id];
      r.(tabs := r.tabs[id := t.(state := Form, hasSocket := false, socketOpen := false, timerArmed := false)],
         error := Some(TimedOut), connectEnabled := true)
  }

  /** The record of tab `id` wherever it lives, open or closed. */
  function Record(r: Registry, id: nat): (t: Option<Tab>)
    ensures t.Some? <==> id in r.tabs || id in r.detached
    ensures id in r.tabs ==> t == Some(r.tabs[id])
    ensures id !in r.tabs && id in r.detached ==> t == Some(r.detached[id])
    ensures Core(r) && t.Some? ==> TabOk(t.value)
  {
    if id in r.tabs then Some(r.tabs[id])
    else if id in r.detached then Some(r.detached[id])
    else None
  }

  /**
   * A stale connect timer of tab `id` fires. Its callback holds the tab
   * object, so it reaches the record open or closed and whatever state it
   * is in: the socket is closed and dropped, the timeout shown, the
   * connect button reset and the tab put back in the form state. The
   * current timer, the status line and the disconnect button are left
   * as they were.
   */
  function OnStaleTimeout(r: Registry, id: nat): (r': Registry)
    ensures Record(r, id).None? || Record(r, id).value.staleTimers == 0 ==> r' == r
    ensures Record(r, id).Some? && Record(r, id).value.staleTimers > 0 ==>
      var t := Record(r, id).value;
      && r' == Store(r, id, t.(state := Form, hasSocket := false, socketOpen := false, staleTimers := t.staleTimers - 1))
                 .(error := Some(TimedOut), connectEnabled := true)
      && Record(r', id).value.timerArmed == t.timerArmed
      && r'.statusText == r.statusText && r'.disconnectEnabled == r.disconnectEnabled
  {
    var record := Record(r, id);
    if record.None? || record.value.staleTimers == 0 then r
    else
      var t := record.value;
      var t' := t.(state := Form, hasSocket := false, socketOpen := false, staleTimers := t.staleTimers - 1);
      ShowTimedOut(Store(r, id, t'))
  }

  /** A stale timer keeps the registry invariant: the record it resets stays well formed. */
  lemma StaleTimeoutKeepsValid(r: Registry, id: nat)
    requires Valid(r)
    ensures Valid(OnStaleTimeout(r, id))
  {
    var record := Record(r, id);
    if record.Some? && record.value.staleTimers > 0 {
      var t := record.value;
      var t' := t.(state := Form, hasSocket := false, socketOpen := false, staleTimers := t.staleTimers - 1);
      assert TabOk(t');
      var stored := Store(r, id, t');
      assert Valid(stored);
      assert OnStaleTimeout(r, id) == ShowTimedOut(stored);
    } else {
      assert OnStaleTimeout(r, id) == r;
    }
  }

  /** `showError(…timed out)` and `resetConnectBtn()`: nothing else of the registry changes. */
  function ShowTimedOut(r: Registry): (r': Registry)
    ensures SameTabs(r, r') && r'.newTabVisible == r.newTabVisible
    ensures r'.statusText == r.statusText && r'.disconnectEnabled == r.disconnectEnabled
    ensures r'.error == Some(TimedOut) && r'.connectEnabled
    ensures Valid(r) ==> Valid(r')
  {
    r.(error := Some(TimedOut), connectEnabled := true)
  }

  /**
   * `disconnectTab`: the socket is closed and dropped and the tab is
   * disconnected; the status line changes only for the active tab. The
   * connect timer is not touched.
   */
  function DisconnectTab(r: Registry, id: nat): (r': Registry)
    ensures Valid(r) ==> Valid(r')
    ensures id !in r.tabs ==> r' == r
    ensures id in r.tabs ==>
      && r'.tabs == r.tabs[id := r.tabs[id].(state := Disconnected, hasSocket := false, socketOpen := false)]
      && r'.active == r.active && r'.pending == r.pending && r'.detached == r.detached
      && r'.counter == r.counter && r'.error == r.error && r'.connectEnabled == r.connectEnabled
      && r'.newTabVisible == r.newTabVisible
      && (r.active == Some(id) ==> r'.statusText == r.tabs[id].title + DisconnectedSuffix && !r'.disconnectEnabled)
      && (r.active != Some(id) ==> r'.statusText == r.statusText && r'.disconnectEnabled == r.disconnectEnabled)
  {
    if id !in r.tabs then r
    else
      var t := r.tabs[id];
      var r1 := r.(tabs := r.tabs[id := t.(hasSocket := false, socketOpen := false, state := Disconnected)]);
      if r.active == Some(id) then r1.(statusText := t.title + DisconnectedSuffix, disconnectEnabled := false)
      else r1
  }

  /**
   * A click on the disconnect button: a disabled button dispatches no
   * click, and the listener runs `disconnectTab` only when a tab is
   * active.
   */
  function DisconnectClick(r: Registry): (r': Registry)
    ensures !r.disconnectEnabled || r.active.None? ==> r' == r
    ensures r.disconnectEnabled && r.active.Some? ==> r' == DisconnectTab(r, r.active.value)
    ensures Valid(r) ==> Valid(r')
  {
    if r.disconnectEnabled && r.active.Some? then DisconnectTab(r, r.active.value) else r
  }

  /**
   * `duplicateTab`: nothing for a missing tab or one never connected;
   * "Maximum tabs reached" at capacity; otherwise a new tab becomes
   * pending and active, the form is filled from the source's connection
   * info (no secrets), and the source tab is left as it was.
   */
  function DuplicateTab(r: Registry, id: nat): (res: (Registry, Option<ConnInfo>))
    requires Valid(r)
    ensures Valid(res.0)
    ensures id !in r.tabs || r.tabs[id].connInfo.None? ==> res == (r, None)
    ensures id in r.tabs && r.tabs[id].connInfo.Some? && |r.tabs| >= MaxTabs ==>
      res == (r.(error := Some(MaxTabsReached)), None)
    ensures id in r.tabs && r.tabs[id].connInfo.Some? && |r.tabs| < MaxTabs ==>
      var n := r.counter + 1;
      && res.1 == r.tabs[id].connInfo
      && res.0.tabs == r.tabs[n := NewTab()] && res.0.counter == n && res.0.detached == r.detached
      && res.0.pending == Some(n) && res.0.active == Some(n)
      && res.0.statusText == "" && !res.0.disconnectEnabled
      && res.0.connectEnabled && res.0.error.None?
    ensures id in r.tabs ==> id in res.0.tabs && res.0.tabs[id] == r.tabs[id]
  {
    if id !in r.tabs || r.tabs[id].connInfo.None? then (r, None)
    else
      var (r1, created) := CreateTab(r);
      match created
      case None => (r.(error := Some(MaxTabsReached)), None)
      case Some(n) => (ShowConnectForm(SwitchTab(r1.(pending := Some(n)), n)), r.tabs[id].connInfo)
  }
}
