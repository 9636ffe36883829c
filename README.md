# web2ssh: tab engine, settings and saved sessions, in Dafny

web2ssh is a browser front end for SSH. The browser script
`web/js/terminal.js` keeps up to ten terminal tabs. Each tab has its own
WebSocket to the server and moves through the states form → connecting →
connected → disconnected. A small Go server keeps the SSH settings
(`internal/config`) and a list of saved sessions (`internal/session`),
each behind a JSON endpoint.

This project models:

- **The tab engine** (`terminal.js`), in two layers:
  - `tabs.dfy` (module `Tabs`) states each user action and each socket,
    frame or timer event as a function over a `Registry` value. That
    value holds the tab map, the id counter, the active and pending ids,
    and the page controls the script drives: status line, disconnect
    button, new-tab button, error message, connect button.
  - `terminal.dfy` (module `Terminal`) is the class `TabManager`, whose
    fields are the script's globals. Its methods change them step by step
    in the script's order. Each method is proved to end in the state the
    `Tabs` function gives. Apart from `onopen`, which reads the connect
    parameters of a tab that has a socket, the socket, frame and timer
    handlers ask nothing of the state they run in; each `Tabs` event
    function keeps the registry invariant whenever it held before.
  - `tab_facts.dfy` (module `TabFacts`) proves properties across events:
    - the disconnect button is never enabled on a connecting tab, so a
      click never reaches one;
    - the current connect timer runs only while a tab is connecting.
      Every event keeps this, including a click on the disconnect button.
      `disconnectTab` called on a connecting tab breaks it, and so does a
      stale timer: one whose id a second `connect()` overwrote. When a
      stale timer fires, it ends the tab's connection while the current
      timer stays pending;
    - ids are never reused;
    - a closed tab's late `connected` frame clears another tab's pending
      marker;
    - two complete connection scenarios.
- **Settings** (`config.dfy`, module `Config`):
  - the defaults and `Validate`, whose error is the first failing check
    in source order;
  - how `Store.Load` lays a stored document over the defaults.
- **The settings endpoint** (`config_handler.dfy`, module `ConfigHandler`):
  GET, and PUT's decode → `Validate` → `Save` gate.
- **The saved-session store** (`sessions.dfy`, module `Sessions`):
  - the file is a value: missing, unreadable, malformed, or a stored list;
  - `Add`, `Update` and `Delete` are methods of class `Store`, with the
    source's loops;
  - each is proved against a function over the list.
- **The sessions endpoint** (`session_handler.dfy`, module
  `SessionHandler`): id extraction, dispatch on the verb, the store call,
  and the status code.

Three behaviours of the code that the model keeps as written:

- An `error` frame puts a tab back in the form state but keeps its
  socket.
- A socket close while connecting leaves the tab connecting.
- `disconnectTab` does not clear the connect timer.

One behaviour of the code is stated as a lemma, not corrected
(`TabFacts.RequestedTabKeepsStaleStatus`). A tab opened with the new-tab
button is already active when its `connected` frame arrives, so
`switchTab` returns at once. The status line then stays empty and the
disconnect button disabled, although the tab is connected.

## Model

| member | source | states |
|---|---|---|
| Tabs.NewTab | web/js/terminal.js:86-96 | The record `createTab` inserts: labelled "New Tab", form state, no socket, timer, handlers, connection info or terminal; it satisfies the per-tab invariant |
| Tabs.Initial | web/js/terminal.js:1-6 | The whole loaded page: no open or closed tabs, counter 0, nothing active or pending, empty status line, disconnect button disabled, new-tab button shown, no error, connect button enabled; the registry invariant holds |
| Tabs.Status | web/js/terminal.js:148-157 | Status line and disconnect button for a tab. Connected → its label and enabled. Disconnected → label + " [disconnected]" and disabled. Otherwise → empty and disabled. The button is enabled iff connected |
| Tabs.Render | web/js/terminal.js:130-134 | Only the new-tab button changes: it is shown exactly when fewer than ten tabs are open; the invariant is restored |
| Tabs.ShowConnectForm | web/js/terminal.js:229-242 | Only the connect button (enabled) and the error (hidden) change; invariant kept |
| Tabs.CreateTab | web/js/terminal.js:77-100 | Refused (nothing changes) exactly when ten tabs are open. Otherwise one `New Tab` form record is added under counter+1, an id above every open or closed id; active and pending are unchanged |
| Tabs.SwitchTab | web/js/terminal.js:137-173 | No-op for an unknown or already active id. Otherwise the tab becomes active and status/button equal `Status` of it; tabs unchanged; invariant kept |
| Tabs.LargestUpTo | web/js/terminal.js:196-204 | The largest key not above the bound, or None exactly when every key is above it |
| Tabs.Closed | web/js/terminal.js:179-184 | A closed record: current timer cleared, socket closed, terminal disposed; state, label, connection info, socket reference, written text and stale timers kept |
| Tabs.Detach | web/js/terminal.js:175-194 | The record leaves `tabs` (one fewer) and is kept closed in `detached`. Pending and active are cleared iff they named it |
| Tabs.DetachKeepsCore | web/js/terminal.js:175-194 | After the record leaves, ids still come from the counter, a closed id is not open, and active and pending name open tabs |
| Tabs.CloseTab | web/js/terminal.js:175-209 | No-op for an unknown id. Otherwise exactly that tab goes, its record is kept closed, the counter and the error are kept, and pending is cleared iff it was that tab. Then: last tab → nothing active, connect button reset, status line and disconnect button kept. Active tab closed → the largest remaining id is active, with its status. Another tab closed → active and status kept |
| Tabs.RequestNewTab | web/js/terminal.js:220-227 | At capacity nothing changes. Otherwise a fresh tab becomes pending and active, with empty status, disabled disconnect, connect form reset; the earlier pending tab is not closed and the closed records are unchanged |
| Tabs.CancelNewTab | web/js/terminal.js:251-257 | Nothing pending → no change. Otherwise nothing is pending and the pending tab is closed as `closeTab` closes it: gone from the open tabs, its record kept closed, counter and error kept, and the same three cases for the active tab and the status line |
| Tabs.IsSpace | web/js/terminal.js:260-265 | The white space `String.prototype.trim` strips: ECMAScript WhiteSpace and LineTerminator; space, tab, newline and carriage return are in it, ASCII letters and digits are not |
| Tabs.SpacesFrom | web/js/terminal.js:260-265 | The end of the white-space run starting at an index: every character skipped is white space and the next one is not (or the string ends) |
| Tabs.SpacesDownTo | web/js/terminal.js:260-265 | The start of the white-space run ending at an index, not below a bound: every character skipped is white space and the one before is not (or the bound is reached) |
| Tabs.Trim | web/js/terminal.js:260-265 | Result is a slice of the input with only white space before and after it, and it neither starts nor ends with white space; it is empty iff the input is all white space |
| Tabs.PortOrDefault | web/js/terminal.js:261 | A parsed non-zero port is kept; a zero or unparsable port becomes 22 (both stated); the result is never 0 |
| Tabs.AttemptOf | web/js/terminal.js:260-266 | Host, user and key path are trimmed; the port is `PortOrDefault` of the parsed field; password, passphrase and auth type are taken as entered |
| Tabs.FormError | web/js/terminal.js:268-276 | No error exactly when host and user are non-empty and key auth has a key path. An empty host or user gives "Host and User are required" first; only with both present does key auth without a key path give "Key Path is required for SSH Key authentication" |
| Tabs.Launched | web/js/terminal.js:294-302 | The launched record: labelled user@host, connecting, a new unopened socket, the timer armed, the handlers installed; a timer that was already armed becomes one more stale timer; connection info and terminal kept; the per-tab invariant is kept |
| Tabs.Launch | web/js/terminal.js:294-302 | Exactly that tab's record becomes `Launched` of it and the new-tab button follows the count; all else unchanged |
| Tabs.LaunchOnNewTab | web/js/terminal.js:282-296 | No pending tab: at capacity "Maximum tabs reached" and the connect button re-enabled, tabs unchanged. Otherwise tab counter+1 is created, made pending and launched |
| Tabs.StartAttempt | web/js/terminal.js:278-302 | The pending tab, or a new pending one, is labelled user@host, connecting, timer armed, with a socket; error hidden and connect button disabled. At capacity the tabs are unchanged and "Maximum tabs reached" is shown |
| Tabs.Connect | web/js/terminal.js:259-302 | On a form error only the error changes, to that message; a valid form gives `StartAttempt` of the trimmed attempt; invariant kept |
| Tabs.ConnectFrameOf | web/js/terminal.js:312-324 | The connect frame carries host, port, user and auth type, plus key path and passphrase iff auth is "key", else the password; never both |
| Tabs.Handled | web/js/terminal.js:326-383 | The record a tab's handlers act on: the live record if it has handlers, otherwise the closed record if it has them, and nothing exactly when neither does |
| Tabs.Store | web/js/terminal.js:326-383 | A record is written back where it lives; nothing else changes; the invariant is kept |
| Tabs.OnOpen | web/js/terminal.js:312-324 | If the tab still has a socket, it is marked open and its connect frame is sent; otherwise nothing happens |
| Tabs.OnConnected | web/js/terminal.js:330-349 | The live record is the old one with the timer cleared, state connected, connection info snapshotted and a new empty terminal; its socket and connect parameters are kept. Pending is cleared (whichever tab it named) and the tab is switched to: if it was not active the status line and disconnect button follow `Status` of it, if it already was they are left as they were. Error and connect button are unchanged. For a closed tab the closed record changes the same way and pending is cleared; nothing else changes and no tab is switched to |
| Tabs.ConnectedKeepsValid | web/js/terminal.js:330-349 | A connected frame keeps the registry invariant |
| Tabs.OnOutput | web/js/terminal.js:350-352 | When the handled record has a terminal, exactly that record, open or closed, gains the data at the end of its written text; otherwise nothing changes |
| Tabs.OnErrorFrame | web/js/terminal.js:353-358 | Timer cleared, tab back to form whatever its state, message shown, connect button reset; the socket is kept |
| Tabs.ClosedSocket | web/js/terminal.js:362-374 | Timer cleared and socket closed. Only connected → disconnected, with the closed notice written; a connecting tab stays connecting |
| Tabs.OnClose | web/js/terminal.js:362-374 | Applies `ClosedSocket` to a live tab with handlers. The status changes only when the active tab goes from connected to disconnected |
| Tabs.OnSocketError | web/js/terminal.js:376-383 | The whole new registry: the handled record is written back with its timer cleared. A connecting tab also goes back to form with "WebSocket connection failed" shown and the connect button reset; other states are kept. Nothing else changes |
| Tabs.OnTimeout | web/js/terminal.js:302-310 | Fires only for a live tab with the timer armed. The whole new registry: that tab has its socket closed and dropped and is back in the form state, "Connection timed out" is shown and the connect button reset; nothing else changes |
| Tabs.Record | web/js/terminal.js:302-310 | The record a timer callback holds: the open one, else the closed one, and nothing exactly when neither exists; in a well-formed registry it satisfies the per-tab invariant |
| Tabs.OnStaleTimeout | web/js/terminal.js:302-310 | Only a record with a stale timer is touched. The whole new registry: the record, open or closed, has its socket closed and dropped, is back in the form state and has one stale timer fewer; "Connection timed out" is shown and the connect button reset. Its current timer, the status line and the disconnect button are unchanged |
| Tabs.ShowTimedOut | web/js/terminal.js:306-307 | Showing the timeout changes only the error and the connect button; the invariant is kept |
| Tabs.StaleTimeoutKeepsValid | web/js/terminal.js:302-310 | A stale timer firing keeps the registry invariant |
| Tabs.DisconnectTab | web/js/terminal.js:437-451 | Socket closed and dropped, state disconnected; status and disconnect button change only for the active tab; the timer, the error, the connect button and the counter are not touched |
| Tabs.DisconnectClick | web/js/terminal.js:29-31 | A click on the disconnect button does nothing while the button is disabled or no tab is active; otherwise it is `DisconnectTab` of the active tab; the invariant is kept |
| Tabs.DuplicateTab | web/js/terminal.js:619-634 | No-op without a source tab or its connection info. "Maximum tabs reached" at capacity. Otherwise a new pending active tab under counter+1, an empty status line with the disconnect button disabled, the form reset (error hidden, connect button enabled) and filled with the source's info; the source tab and the closed records unchanged |
| Terminal.TabManager.constructor | web/js/terminal.js:1-6 | The page as loaded (`Tabs.Initial`) |
| Terminal.TabManager.RenderTabBar | web/js/terminal.js:102-135 | State becomes `Tabs.Render` of the old state |
| Terminal.TabManager.ShowError | web/js/terminal.js:515-518 | Only the error message changes |
| Terminal.TabManager.ResetConnectBtn | web/js/terminal.js:524-527 | Only the connect button changes, to enabled |
| Terminal.TabManager.ShowConnectFormOverlay | web/js/terminal.js:229-242 | State becomes `Tabs.ShowConnectForm` of the old state |
| Terminal.TabManager.TabIds | web/js/terminal.js:196 | `Object.keys(tabs)`: every open id exactly once, strictly ascending, as many as there are tabs |
| Terminal.TabManager.CreateTab | web/js/terminal.js:77-100 | State and result are `Tabs.CreateTab` of the old state |
| Terminal.TabManager.SwitchTab | web/js/terminal.js:137-173 | State becomes `Tabs.SwitchTab` of the old state |
| Terminal.TabManager.Discard | web/js/terminal.js:176-194 | State becomes `Tabs.Detach` of the old state with the active marker kept |
| Terminal.TabManager.CloseTab | web/js/terminal.js:175-209 | State becomes `Tabs.CloseTab` of the old state; invariant kept |
| Terminal.TabManager.RequestNewTab | web/js/terminal.js:220-227 | State becomes `Tabs.RequestNewTab` of the old state |
| Terminal.TabManager.CancelNewTab | web/js/terminal.js:251-257 | State becomes `Tabs.CancelNewTab` of the old state |
| Terminal.TabManager.Connect | web/js/terminal.js:259-277 | State becomes `Tabs.Connect` of the old state and the form |
| Terminal.TabManager.StartAttempt | web/js/terminal.js:278-292 | State becomes `Tabs.StartAttempt` of the old state |
| Terminal.TabManager.LaunchTab | web/js/terminal.js:294-383 | State becomes `Tabs.Launch` of the old state |
| Terminal.TabManager.DisconnectActive | web/js/terminal.js:29-31 | State becomes `Tabs.DisconnectClick` of the old state; invariant kept |
| Terminal.TabManager.DisconnectTab | web/js/terminal.js:437-451 | State becomes `Tabs.DisconnectTab` of the old state |
| Terminal.TabManager.DuplicateTab | web/js/terminal.js:619-634 | State and filled-in info are `Tabs.DuplicateTab` of the old state |
| Terminal.TabManager.StoreTab | web/js/terminal.js:326-383 | State becomes `Tabs.Store` of the old state |
| Terminal.TabManager.OnOpen | web/js/terminal.js:312-324 | State and frame sent are `Tabs.OnOpen` of the old state |
| Terminal.TabManager.OnConnected | web/js/terminal.js:330-349 | State becomes `Tabs.OnConnected` of the old state |
| Terminal.TabManager.OnOutput | web/js/terminal.js:350-352 | State becomes `Tabs.OnOutput` of the old state |
| Terminal.TabManager.OnErrorFrame | web/js/terminal.js:353-358 | State becomes `Tabs.OnErrorFrame` of the old state |
| Terminal.TabManager.OnClose | web/js/terminal.js:362-374 | State becomes `Tabs.OnClose` of the old state |
| Terminal.TabManager.OnSocketError | web/js/terminal.js:376-383 | State becomes `Tabs.OnSocketError` of the old state |
| Terminal.TabManager.OnTimeout | web/js/terminal.js:302-310 | State becomes `Tabs.OnTimeout` of the old state |
| Terminal.TabManager.OnStaleTimeout | web/js/terminal.js:302-310 | State becomes `Tabs.OnStaleTimeout` of the old state |
| Terminal.TabManager.SendInput | web/js/terminal.js:409-413 | An input frame with the keystrokes goes out iff the tab has a terminal and an open socket |
| Terminal.TabManager.Resize | web/js/terminal.js:415-433 | A resize frame with the size goes out iff the tab has a terminal and an open socket |
| Terminal.DistinctKeysCount | web/js/terminal.js:196 | A strictly ascending list of exactly a map's keys is as long as the map |
| Terminal.LastIdIsLargest | web/js/terminal.js:196-204 | The last of the ascending ids is the largest open id, the one `LargestUpTo` picks |
| TabFacts.CreateKeepsTimerRule | web/js/terminal.js:77-100 | Creating a tab keeps "an armed timer only on a connecting tab" |
| TabFacts.ConnectKeepsTimerRule | web/js/terminal.js:259-302 | connect() arms a timer only on a tab it makes connecting |
| TabFacts.OpenKeepsTimerRule | web/js/terminal.js:312-324 | Socket open keeps the timer rule |
| TabFacts.OutputKeepsTimerRule | web/js/terminal.js:350-352 | Output frames keep the timer rule |
| TabFacts.ConnectedKeepsTimerRule | web/js/terminal.js:330-349 | A connected frame keeps the timer rule |
| TabFacts.ErrorFrameKeepsTimerRule | web/js/terminal.js:353-358 | An error frame keeps the timer rule |
| TabFacts.SocketErrorKeepsTimerRule | web/js/terminal.js:376-383 | A socket error keeps the timer rule |
| TabFacts.CloseAndTimeoutKeepTimerRule | web/js/terminal.js:302-374 | Socket close and timeout keep the timer rule |
| TabFacts.CloseKeepsTimerRule | web/js/terminal.js:175-257 | Closing a tab and cancelling the pending one keep the timer rule |
| TabFacts.SwitchAndRequestKeepTimerRule | web/js/terminal.js:137-227 | Switching tabs and the new-tab button keep the timer rule |
| TabFacts.DuplicateKeepsTimerRule | web/js/terminal.js:619-634 | Duplicating a tab keeps the timer rule |
| TabFacts.DisconnectLeavesTimerArmed | web/js/terminal.js:302-451 | `disconnectTab` called on a connecting tab leaves its timer armed; when it fires, the disconnected tab goes back to form with "Connection timed out" |
| TabFacts.ConnectUsesFreshIds | web/js/terminal.js:77-292 | connect() never lowers the counter or touches closed tabs; any new tab has id counter+1, never used before |
| TabFacts.LateConnectedClearsPending | web/js/terminal.js:181-334 | After a tab is closed, its connected frame still clears the pending marker of another, still open tab |
| TabFacts.RequestKeepsEarlierPendingTab | web/js/terminal.js:220-227 | requestNewTab replaces the pending marker and leaves the earlier pending tab open |
| TabFacts.ConnectFromInitial | web/js/terminal.js:259-302 | On the loaded page, connect() makes tab 1, pending and connecting, with nothing active |
| TabFacts.FirstConnection | web/js/terminal.js:259-349 | Loaded page, connect, open, connected frame → tab 1 connected, active, labelled user@host, shown in the status, disconnect enabled, timer cleared, nothing pending |
| TabFacts.ConnectOnRequestedTab | web/js/terminal.js:220-302 | connect() on a tab from the new-tab button gives that tab a socket and handlers while it stays active with an empty status line and a disabled disconnect button |
| TabFacts.RequestedTabKeepsStaleStatus | web/js/terminal.js:137-349 | A tab from the new-tab button ends connected while the status line stays empty and the disconnect button disabled |
| TabFacts.InitialIsButtonSafe | web/js/terminal.js:1-6 | On the loaded page the disconnect button is safe: no pending tab is connected, and an enabled button is on a non-connecting, non-pending tab |
| TabFacts.SwitchKeepsButtonSafe | web/js/terminal.js:137-173 | Switching tabs keeps the button safe |
| TabFacts.CreateKeepsButtonSafe | web/js/terminal.js:77-100 | Creating a tab keeps the button safe |
| TabFacts.CloseKeepsButtonSafe | web/js/terminal.js:175-209 | Closing a tab keeps the button safe |
| TabFacts.CancelKeepsButtonSafe | web/js/terminal.js:251-257 | Cancelling the new tab keeps the button safe |
| TabFacts.RequestAndDuplicateKeepButtonSafe | web/js/terminal.js:220-634 | The new-tab button and duplicating a tab keep the button safe |
| TabFacts.ConnectKeepsButtonSafe | web/js/terminal.js:259-302 | connect() keeps the button safe: the tab it makes connecting is pending, so it is not the one the enabled button is on |
| TabFacts.ConnectedKeepsButtonSafe | web/js/terminal.js:330-349 | A connected frame keeps the button safe |
| TabFacts.OpenAndOutputKeepButtonSafe | web/js/terminal.js:312-352 | Socket open and output frames keep the button safe |
| TabFacts.ErrorFrameKeepsButtonSafe | web/js/terminal.js:353-358 | An error frame keeps the button safe |
| TabFacts.CloseEventKeepsButtonSafe | web/js/terminal.js:362-374 | The socket's close event keeps the button safe |
| TabFacts.SocketErrorKeepsButtonSafe | web/js/terminal.js:376-383 | The socket's error event keeps the button safe |
| TabFacts.TimeoutsKeepButtonSafe | web/js/terminal.js:302-310 | The current and a stale connect timer firing keep the button safe |
| TabFacts.ClickKeepsButtonSafe | web/js/terminal.js:29-31 | A click on the disconnect button keeps the button safe |
| TabFacts.ClickIgnoredWhileConnecting | web/js/terminal.js:29-31 | With the button safe, a click while the active tab is connecting changes nothing |
| TabFacts.ClickKeepsTimerRule | web/js/terminal.js:29-451 | With the button safe, a click keeps "a current timer only on a connecting tab", although `disconnectTab` does not clear the timer |
| TabFacts.ClickIgnoredOnRequestedTab | web/js/terminal.js:29-302 | A click right after connect() on a tab from the new-tab button changes nothing |
| TabFacts.ConnectTwiceFromInitial | web/js/terminal.js:45-302 | Two connect() calls on the loaded page (Enter in a form field calls it even while the connect button is disabled) launch tab 1 twice: it stays pending and inactive, and its first timer becomes stale |
| TabFacts.StaleTimeoutBreaksTimerRule | web/js/terminal.js:45-310 | After two connect() calls the timer rule holds with one stale timer; when that timer fires, tab 1 is back in the form state with its current timer still armed, so the rule no longer holds |
| TabFacts.StaleTimeoutEndsConnection | web/js/terminal.js:259-349 | connect, connect, open, connected: tab 1 is connected with a socket and the disconnect button enabled. Then the stale timer fires: tab 1 is in the form state without a socket, "Connection timed out" is shown, and the status line and enabled disconnect button are left as they were |
| Config.DefaultSettings | internal/config/config.go:34-48 | Timeout 10, keep-alive 30, max fails 3, font 14, cursor "block", blink on, scrollback 1000 |
| Config.Validate | internal/config/config.go:94-119 | Valid iff all six range/enum checks hold. Otherwise it names a failing check, and every earlier check in source order passed |
| Config.DefaultsAreValid | internal/config/config.go:34-119 | The defaults pass `Validate` |
| Config.ZeroIsRejected | internal/config/config.go:94-98 | The all-zero settings fail first on the connection timeout |
| Config.ZeroSettings | internal/config/handler.go:39-43 | Go's zero value of the settings, which a PUT body is decoded onto: every number 0, an empty cursor style, blink off |
| Config.Message | internal/config/config.go:94-119 | The non-empty error text `Validate` returns for each failing check |
| Config.MessagesDiffer | internal/config/config.go:94-119 | Different checks have different messages, so the text names the failing check |
| Config.Overlay | internal/config/config.go:76-79 | Every key present in the document replaces the base field; every absent key keeps it |
| Config.Load | internal/config/config.go:64-81 | Missing file → defaults. Read or decode error → that error. Stored document → laid over the defaults |
| Config.Save | internal/config/config.go:83-92 | A save stores a document |
| Config.AbsentFieldKeepsDefault | internal/config/config.go:68-80 | Keys absent from the stored file load as their defaults: a missing object as a whole, and each of the seven keys on its own |
| Config.SaveThenLoad | internal/config/config.go:64-92 | Loading saved settings returns exactly them |
| Config.OverlayIdempotent | internal/config/config.go:76-79 | Laying the same document twice equals laying it once |
| ConfigHandler.Get | internal/config/handler.go:29-36 | 200 with the loaded settings iff they load; otherwise 500 "failed to load settings"; nothing saved |
| ConfigHandler.Put | internal/config/handler.go:38-58 | Undecodable → 400, nothing saved. Invalid after decoding onto the zero value → 400 with the first violation's message, nothing saved. Otherwise saved; a failing save → 500 "failed to save settings"; 200 echoes exactly the saved settings |
| ConfigHandler.ServeHTTP | internal/config/handler.go:16-27 | GET → `Get`, PUT → `Put`, any other verb → 405; whatever is saved is valid |
| ConfigHandler.PutWithoutSshIsRefused | internal/config/handler.go:38-50 | A PUT without the ssh object is refused with the connection-timeout message |
| ConfigHandler.PutThenGet | internal/config/handler.go:29-58 | A valid PUT echoes and saves the settings, and a GET after that save returns them |
| Sessions.LoadFile | internal/session/session.go:40-57 | No file → empty list. Stored list → that list. Error iff unreadable or malformed |
| Sessions.FirstMatch | internal/session/session.go:89-95 | The first index with the given ID, or None exactly when none has it |
| Sessions.Replaced | internal/session/session.go:80-96 | None iff no ID matches. Otherwise only the first match is replaced by the session; length and every other entry unchanged |
| Sessions.Removed | internal/session/session.go:98-114 | None iff no ID matches. Otherwise exactly the first match is cut out; one shorter |
| Sessions.RemovedKeepsOthers | internal/session/session.go:107-111 | Deleting keeps every other session, each as often as before (multiset of the rest plus the removed one is the original) |
| Sessions.RemovedKeepsOrder | internal/session/session.go:107-111 | Deleting keeps the sessions before the removed one in place and shifts the ones after it down by one, in the same order |
| Sessions.CutKeepsRest | internal/session/session.go:107-111 | Cutting one element out of a list keeps every other element, each as often as before |
| Sessions.CutKeepsOrder | internal/session/session.go:107-111 | Cutting one element out of a list keeps the earlier elements in place and shifts the later ones down by one |
| Sessions.AppendedDuplicateIsShadowed | internal/session/session.go:67-93 | Add checks no IDs; an appended duplicate is shadowed by the older entry for Update and Delete |
| Sessions.Write | internal/session/session.go:59-65 | Success iff the write does not fail; then the file reads back as the list; on failure the file is unchanged |
| Sessions.AddEffect | internal/session/session.go:67-78 | A load error aborts with the file unchanged. Otherwise the session is appended at the end; error iff the write fails |
| Sessions.UpdateEffect | internal/session/session.go:80-96 | A load error aborts. An unknown ID → NotFound, file unchanged. Otherwise the file holds `Replaced` |
| Sessions.DeleteEffect | internal/session/session.go:98-114 | A load error aborts. An unknown ID → NotFound, file unchanged. Otherwise the file holds `Removed` |
| Sessions.Store.Load | internal/session/session.go:40-57 | The stored list, the empty list without a file, and the read or decode error otherwise |
| Sessions.Store.Save | internal/session/session.go:59-65 | File and error are `Write` of the old file |
| Sessions.Store.Add | internal/session/session.go:67-78 | File and error are `AddEffect` of the old file |
| Sessions.Store.Update | internal/session/session.go:80-96 | File and error are `UpdateEffect` of the old file; the loop finds the first match |
| Sessions.Store.Delete | internal/session/session.go:98-114 | File and error are `DeleteEffect` of the old file; the loop finds the first match |
| SessionHandler.TrimPrefix | internal/session/handler.go:22 | With the prefix, prefix + result is the input; without it, the input unchanged |
| SessionHandler.PathId | internal/session/handler.go:22-25 | The path after "/api/sessions/", or "" when the prefix is absent |
| SessionHandler.Create | internal/session/handler.go:50-69 | Undecodable → 400. Otherwise an Add of the body with the generated ID and port 0 → 22; all other fields as sent |
| SessionHandler.Update | internal/session/handler.go:71-90 | Empty id → 400 "session id required" before decoding. Undecodable → 400. Otherwise an Update of the body with its ID forced to the path id |
| SessionHandler.Delete | internal/session/handler.go:92-104 | Empty id → 400 without touching the store; otherwise a Delete of that id |
| SessionHandler.Route | internal/session/handler.go:19-39 | GET → list, POST → create, PUT → update, DELETE → delete, other verbs → 405 "method not allowed" |
| SessionHandler.Complete | internal/session/handler.go:41-104 | List: 200 with the list iff it loads, else 500 "failed to load sessions". Add: 201 echo or 500. Update: 200 echo or 404. Delete: 204 or 404 |
| SessionHandler.Perform | internal/session/handler.go:29-35 | Listing leaves the file alone, and so does any failed call |
| SessionHandler.Serve | internal/session/handler.go:19-104 | An immediate reply leaves the file alone. Any non-2xx answer leaves it unchanged. GET returns the stored list |
| SessionHandler.MissingIdLeavesStore | internal/session/handler.go:22-96 | PUT or DELETE without an id → 400 "session id required" and the file is unchanged |
| SessionHandler.CreateStoresAtEnd | internal/session/handler.go:57-68 | A POST stores the session last under the generated ID, port defaulted, and answers 201 with it |
| SessionHandler.DeleteAnswers | internal/session/handler.go:92-104 | DELETE answers 204 iff some stored session has the id, else 404 with the file unchanged |
| SessionHandler.Handler.constructor | internal/session/handler.go:15-17 | The handler serves the given store |
| SessionHandler.Handler.ServeHTTP | internal/session/handler.go:19-39 | Response and store file afterwards are `Serve` of the old file |

## Left out

- The DOM, xterm.js and the fit add-on are out of scope. Element creation, overlay show/hide, focus, the context menu and the 100 ms and animation-frame refits are not modelled. A terminal is a `hasTerm` flag plus the text written to it.
- Form field reads are parameters (`FormInput`); `parseInt` is a parameter that is `None` when the field does not parse.
- `loadSettings`, `saveSettings`, `loadSessions`, `saveSession`, `deleteSession`, `renderSessions`, `fillSession` and `escapeHtml` are left out. They are network I/O or HTML text; `duplicateTab` returns the info `fillSession` would receive.
- The terminal options taken from the settings cache are not modelled.
- Socket events are addressed by tab id, not by socket object. Because of this, a socket superseded by a second `connect()` on the same tab is not told apart from the current one.
- Connect timers: each tab has one current timer (`timerArmed`) and a count of stale timers, whose ids a later `connect()` overwrote. Their firing order and the 15-second delay are not modelled; any pending timer may fire at any time. The rule "a current timer only on a connecting tab" does not hold for the program: a stale timer breaks it (`TabFacts.StaleTimeoutBreaksTimerRule`).
- A disabled disconnect button dispatches no click. This is browser behaviour, which `Tabs.DisconnectClick` states.
- Which events a browser still delivers after `close()` is not modelled: any event may arrive at any time.
- `Tabs.Handled`: a closed tab's record is kept in `detached`, because its `onmessage` and `onerror` handlers still reach it. Its `onclose` is dropped, as in the source.
- The initial states of the disconnect button (disabled) and the new-tab button (shown) come from the HTML page, which is not part of this model.
- `Terminal.TabManager.LaunchTab`: all record changes are made before `renderTabBar` runs. `renderTabBar` reads only the tab count and the labels, so the end state is the same.
- `Tabs.OnStaleTimeout`: that it keeps the registry invariant is stated by the lemma `Tabs.StaleTimeoutKeepsValid`, not in its own contract.
- `Terminal.TabManager.OnConnected`: the pending marker is cleared after the record is written back, not before. They are different variables, so the end state is the same.
- Go: JSON encoding and decoding are left out. A request body is given already decoded, or as `None` when it does not decode.
- Go: `sync.RWMutex`, `os.UserHomeDir` and directory creation are left out.
- Go: `generateID` (crypto/rand) is a parameter of the sessions endpoint.
- `Sessions.Store.Save`: a failed write is modelled as leaving the file as it was; a partial write is not modelled.
- `Config.Save`: only a successful save is modelled as a function. The settings endpoint takes "the save fails" as a parameter.
- internal/server/server.go (WebSocket upgrade, SSH, PTY, output batching, keep-alive) and main.go (routing) are not part of this model.
