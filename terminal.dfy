/**
 * The browser client's tab engine (web/js/terminal.js) as the script
 * runs it: one object whose fields are the script's module-level
 * variables and the page controls it drives, and whose methods change
 * them step by step in the script's order. Each method is proved to
 * leave the state the matching transition function of module `Tabs`
 * gives, so every property proved there holds of the class.
 */
module Terminal {
  import opened Wrappers
  import opened Tabs

  class TabManager {
    var tabs: map<nat, Tab>
    /** Closed tabs whose socket handlers can still reach the record. */
    var detached: map<nat, Tab>
    var tabIdCounter: nat
    var activeTabId: Option<nat>
    var pendingTabId: Option<nat>
    /** The text of the connection-info element. */
    var connectionInfo: string
    var disconnectEnabled: bool
    var newTabVisible: bool
    /** The error message shown, if any. */
    var errorShown: Option<string>
    var connectEnabled: bool

    /** The state as a `Tabs.Registry`. */
    function Model(): Registry
      reads this
    {
      Registry(tabs, detached, tabIdCounter, activeTabId, pendingTabId,
               connectionInfo, disconnectEnabled, newTabVisible, errorShown, connectEnabled)
    }

    predicate Valid()
      reads this
    {
      Tabs.Valid(Model())
    }

    /** The page as loaded. */
    constructor()
      ensures Model() == Initial() && Valid()
    {
      tabs := map[];
      detached := map[];
      tabIdCounter := 0;
      activeTabId := None;
      pendingTabId := None;
      connectionInfo := "";
      disconnectEnabled := false;
      newTabVisible := true;
      errorShown := None;
      connectEnabled := true;
    }

    // -------------------------------------------------------------------
    // Page helpers
    // -------------------------------------------------------------------

    /** `renderTabBar`. */
    method RenderTabBar()
      modifies this
      ensures Model() == Render(old(Model()))
    {
      newTabVisible := |tabs| < MaxTabs;
    }

    /** `showError`. */
    method ShowError(message: string)
      modifies this
      ensures Model() == old(Model()).(error := Some(message))
    {
      errorShown := Some(message);
    }

    /** `resetConnectBtn`. */
    method ResetConnectBtn()
      modifies this
      ensures Model() == old(Model()).(connectEnabled := true)
    {
      connectEnabled := true;
    }

    /** `showConnectFormOverlay`: the connect button is reset and the error hidden. */
    method ShowConnectFormOverlay()
      modifies this
      ensures Model() == ShowConnectForm(old(Model()))
    {
      ResetConnectBtn();
      errorShown := None;
    }

    /**
     * `Object.keys(tabs).map(Number)`: the ids of the open tabs in
     * ascending order, each once.
     */
    method TabIds() returns (ids: seq<nat>)
      requires forall k :: k in tabs ==> 1 <= k <= tabIdCounter
      ensures forall i, j :: 0 <= i < j < |ids| ==> ids[i] < ids[j]
      ensures forall k :: k in tabs <==> k in ids
      ensures |ids| == |tabs|
    {
      ids := [];
      var k := 1;
      while k <= tabIdCounter
        invariant 1 <= k <= tabIdCounter + 1
        invariant forall i, j :: 0 <= i < j < |ids| ==> ids[i] < ids[j]
        invariant forall i :: 0 <= i < |ids| ==> ids[i] < k
        invariant forall j :: j in ids <==> j in tabs && j < k
      {
        if k in tabs {
          ids := ids + [k];
        }
        k := k + 1;
      }
      DistinctKeysCount(ids, tabs);
    }

    // -------------------------------------------------------------------
    // Registry actions
    // -------------------------------------------------------------------

    /** `createTab`. */
    method CreateTab() returns (id: Option<nat>)
      requires Core(Model())
      modifies this
      ensures (Model(), id) == Tabs.CreateTab(old(Model()))
    {
      if |tabs| >= MaxTabs {
        return None;
      }
      tabIdCounter := tabIdCounter + 1;
      var n := tabIdCounter;
      tabs := tabs[n := NewTab()];
      RenderTabBar();
      return Some(n);
    }

    /** `switchTab`. */
    method SwitchTab(tabId: nat)
      modifies this
      ensures Model() == Tabs.SwitchTab(old(Model()), tabId)
    {
      if tabId !in tabs || activeTabId == Some(tabId) {
        return;
      }
      activeTabId := Some(tabId);
      var tab := tabs[tabId];
      if tab.state == Connected {
        connectionInfo := tab.title;
        disconnectEnabled := true;
      } else if tab.state == Disconnected {
        connectionInfo := tab.title + DisconnectedSuffix;
        disconnectEnabled := false;
      } else {
        connectionInfo := "";
        disconnectEnabled := false;
      }
      RenderTabBar();
    }

    /**
     * The first half of `closeTab`: the timer is cleared, the socket's
     * close handler detached and the socket closed, the terminal disposed,
     * the record removed from `tabs`, and the pending marker cleared if it
     * named the tab. The active marker is not touched yet.
     */
    method Discard(tabId: nat)
      requires Valid() && tabId in tabs
      modifies this
      ensures Model() == Detach(old(Model()), tabId).(active := old(activeTabId))
    {
      var tab := tabs[tabId];
      tab := tab.(timerArmed := false);                     // clearTimeout
      tab := tab.(socketOpen := false);                     // onclose detached, socket closed
      tab := tab.(hasTerm := false);                        // terminal disposed
      tabs := tabs - {tabId};
      detached := detached[tabId := tab];
      if pendingTabId == Some(tabId) {
        pendingTabId := None;
      }
    }

    /** `closeTab`. */
    method CloseTab(tabId: nat)
      requires Valid()
      modifies this
      ensures Model() == Tabs.CloseTab(old(Model()), tabId)
      ensures Valid()
    {
      if tabId !in tabs {
        return;
      }
      Discard(tabId);
      ghost var d := Detach(old(Model()), tabId);
      var ids := TabIds();
      if |ids| == 0 {
        activeTabId := None;
        ResetConnectBtn();                                  // showInitialScreen
      } else if activeTabId == Some(tabId) {
        activeTabId := None;
        assert Model() == d;
        LastIdIsLargest(ids, tabs.Keys, tabIdCounter);
        SwitchTab(ids[|ids| - 1]);
      } else {
        RenderTabBar();
      }
    }

    /** `requestNewTab`. */
    method RequestNewTab()
      requires Valid()
      modifies this
      ensures Model() == Tabs.RequestNewTab(old(Model()))
      ensures Valid()
    {
      var tabId := CreateTab();
      if tabId.None? {
        return;
      }
      pendingTabId := tabId;
      SwitchTab(tabId.value);
      ShowConnectFormOverlay();
    }

    /** `cancelNewTab`. */
    method CancelNewTab()
      requires Valid()
      modifies this
      ensures Model() == Tabs.CancelNewTab(old(Model()))
      ensures Valid()
    {
      if pendingTabId.Some? {
        var tabId := pendingTabId.value;
        pendingTabId := None;
        CloseTab(tabId);
      }
    }

    /** `connect()`. */
    method Connect(form: FormInput)
      requires Valid()
      modifies this
      ensures Model() == Tabs.Connect(old(Model()), form)
      ensures Valid()
    {
      var a := AttemptOf(form);
      if a.host == "" || a.user == "" {
        ShowError(HostUserRequired);
        return;
      }
      if a.authType == "key" && a.keyPath == "" {
        ShowError(KeyPathRequired);
        return;
      }
      StartAttempt(a);
    }

    /** `connect()` past validation. */
    method StartAttempt(a: Attempt)
      requires Valid()
      modifies this
      ensures Model() == Tabs.StartAttempt(old(Model()), a)
    {
      errorShown := None;                                   // hideError
      connectEnabled := false;
      ghost var r1 := Model();
      assert r1 == old(Model()).(error := None, connectEnabled := false);
      var tabId := pendingTabId;
      if tabId.None? {
        tabId := CreateTab();
        ghost var r2 := Model();
        if tabId.None? {
          ShowError(MaxTabsReached);
          ResetConnectBtn();
          assert Model() == r2.(error := Some(MaxTabsReached), connectEnabled := true);
          return;
        }
        pendingTabId := tabId;
        assert Model() == r2.(pending := tabId);
      }
      LaunchTab(tabId.value, a);
    }

    /**
     * The end of `connect()`: tab `id` is labelled and rendered, gets its
     * socket and connect timer, and the socket handlers are installed.
     */
    method LaunchTab(id: nat, a: Attempt)
      requires id in tabs
      modifies this
      ensures Model() == Launch(old(Model()), id, a)
    {
      var tab := tabs[id];
      tab := tab.(title := a.user + "@" + a.host, state := Connecting);
      tab := tab.(hasSocket := true, socketOpen := false);  // new WebSocket
      if tab.timerArmed {
        tab := tab.(staleTimers := tab.staleTimers + 1);   // the old timer id is overwritten
      }
      tab := tab.(timerArmed := true);                      // setTimeout(…, 15000)
      tab := tab.(attempt := Some(a));                      // handlers installed
      tabs := tabs[id := tab];
      RenderTabBar();
    }

    /**
     * Disconnect button: `disconnectTab(activeTabId)` when a tab is active.
     * A disabled button dispatches no click.
     */
    method DisconnectActive()
      requires Valid()
      modifies this
      ensures Model() == Tabs.DisconnectClick(old(Model()))
      ensures Valid()
    {
      if disconnectEnabled && activeTabId.Some? {
        DisconnectTab(activeTabId.value);
      }
    }

    /** `disconnectTab`. */
    method DisconnectTab(tabId: nat)
      requires Valid()
      modifies this
      ensures Model() == Tabs.DisconnectTab(old(Model()), tabId)
    {
      if tabId !in tabs {
        return;
      }
      var tab := tabs[tabId];
      if tab.hasSocket {
        tab := tab.(socketOpen := false, hasSocket := false);
      }
      tab := tab.(state := Disconnected);
      tabs := tabs[tabId := tab];
      if activeTabId == Some(tabId) {
        connectionInfo := tab.title + DisconnectedSuffix;
        disconnectEnabled := false;
      }
    }

    /**
     * `duplicateTab`: returns the connection info written into the form
     * (`fillSession`), if any.
     */
    method DuplicateTab(tabId: nat) returns (fill: Option<ConnInfo>)
      requires Valid()
      modifies this
      ensures (Model(), fill) == Tabs.DuplicateTab(old(Model()), tabId)
      ensures Valid()
    {
      if tabId !in tabs || tabs[tabId].connInfo.None? {
        return None;
      }
      var src := tabs[tabId];
      var newTabId := CreateTab();
      if newTabId.None? {
        ShowError(MaxTabsReached);
        return None;
      }
      pendingTabId := newTabId;
      SwitchTab(newTabId.value);
      ShowConnectFormOverlay();
      return src.connInfo;
    }

    // -------------------------------------------------------------------
    // Socket, frame and timer events of tab `id`
    // -------------------------------------------------------------------

    /** Writes back the record of tab `id`, live or closed. */
    method StoreTab(id: nat, t: Tab)
      requires id in tabs || id in detached
      modifies this
      ensures Model() == Store(old(Model()), id, t)
    {
      if id in tabs {
        tabs := tabs[id := t];
      } else {
        detached := detached[id := t];
      }
    }

    /** The socket's `open` event; returns the frame sent. */
    method OnOpen(id: nat) returns (sent: Option<Frame>)
      requires Valid()
      modifies this
      ensures (Model(), sent) == Tabs.OnOpen(old(Model()), id)
      ensures Valid()
    {
      if id !in tabs || !tabs[id].hasSocket {
        return None;
      }
      var tab := tabs[id];
      tabs := tabs[id := tab.(socketOpen := true)];
      var a := tab.attempt.value;
      var cred := if a.authType == "key" then KeyCred(a.keyPath, a.passphrase) else PasswordCred(a.password);
      return Some(ConnectFrame(a.host, a.port, a.user, a.authType, cred));
    }

    /** A `connected` frame. */
    method OnConnected(id: nat)
      modifies this
      ensures Model() == Tabs.OnConnected(old(Model()), id)
    {
      var handled := Handled(Model(), id);
      if handled.None? {
        return;
      }
      var tab := handled.value;
      var a := tab.attempt.value;
      tab := tab.(timerArmed := false);
      tab := tab.(state := Connected);
      tab := tab.(connInfo := Some(ConnInfo(a.host, a.port, a.user, a.authType, a.keyPath)));
      tab := tab.(hasTerm := true, written := []);         // initTerminalForTab
      StoreTab(id, tab);
      pendingTabId := None;
      assert Model() == Store(old(Model()), id, tab).(pending := None);
      SwitchTab(id);
    }

    /** An `output` frame. */
    method OnOutput(id: nat, data: string)
      modifies this
      ensures Model() == Tabs.OnOutput(old(Model()), id, data)
    {
      var handled := Handled(Model(), id);
      if handled.Some? && handled.value.hasTerm {
        var tab := handled.value;
        StoreTab(id, tab.(written := tab.written + [data]));
      }
    }

    /** An `error` frame. */
    method OnErrorFrame(id: nat, message: string)
      modifies this
      ensures Model() == Tabs.OnErrorFrame(old(Model()), id, message)
    {
      var handled := Handled(Model(), id);
      if handled.None? {
        return;
      }
      var tab := handled.value.(timerArmed := false);      // clearTimeout
      StoreTab(id, tab.(state := Form));
      errorShown := Some(message);                          // showError
      connectEnabled := true;                               // resetConnectBtn
    }

    /** The socket's `close` event. */
    method OnClose(id: nat)
      modifies this
      ensures Model() == Tabs.OnClose(old(Model()), id)
    {
      if id !in tabs || tabs[id].attempt.None? {
        return;
      }
      var tab := tabs[id].(timerArmed := false, socketOpen := false);
      if tab.state == Connected {
        tab := tab.(state := Disconnected);
        if tab.hasTerm {
          tab := tab.(written := tab.written + [ClosedNotice]);
        }
        if activeTabId == Some(id) {
          connectionInfo := tab.title + DisconnectedSuffix;
          disconnectEnabled := false;
        }
      }
      tabs := tabs[id := tab];
    }

    /** The socket's `error` event. */
    method OnSocketError(id: nat)
      modifies this
      ensures Model() == Tabs.OnSocketError(old(Model()), id)
    {
      var handled := Handled(Model(), id);
      if handled.None? {
        return;
      }
      var tab := handled.value.(timerArmed := false);      // clearTimeout
      if tab.state == Connecting {
        StoreTab(id, tab.(state := Form));
        errorShown := Some(SocketFailed);                   // showError
        connectEnabled := true;                             // resetConnectBtn
      } else {
        StoreTab(id, tab);
      }
    }

    /** The connect timer of tab `id` fires. */
    method OnTimeout(id: nat)
      modifies this
      ensures Model() == Tabs.OnTimeout(old(Model()), id)
    {
      if id !in tabs || !tabs[id].timerArmed {
        return;
      }
      var tab := tabs[id].(timerArmed := false);
      if tab.hasSocket {
        tab := tab.(socketOpen := false);                   // ws.close()
      }
      errorShown := Some(TimedOut);                         // showError
      connectEnabled := true;                               // resetConnectBtn
      tab := tab.(state := Form);
      tab := tab.(hasSocket := false, socketOpen := false); // tab.ws = null
      tabs := tabs[id := tab];
    }

    /**
     * A connect timer of tab `id` whose id a later `connect()` overwrote
     * fires; its callback still holds the tab object.
     */
    method OnStaleTimeout(id: nat)
      modifies this
      ensures Model() == Tabs.OnStaleTimeout(old(Model()), id)
    {
      var record := Record(Model(), id);
      if record.None? || record.value.staleTimers == 0 {
        return;
      }
      var r := Model();
      var t := record.value;
      // ws.close(), the tab back to the form, tab.ws = null
      var tab := t.(state := Form, hasSocket := false, socketOpen := false, staleTimers := t.staleTimers - 1);
      assert Tabs.OnStaleTimeout(r, id) == Store(r, id, tab).(error := Some(TimedOut), connectEnabled := true);
      StoreTab(id, tab);
      errorShown := Some(TimedOut);                         // showError
      connectEnabled := true;                               // resetConnectBtn
      assert Model() == Store(r, id, tab).(error := Some(TimedOut), connectEnabled := true);
    }

    // -------------------------------------------------------------------
    // Frames sent from the terminal widget
    // -------------------------------------------------------------------

    /**
     * The widget's `onData`: the keystrokes go out as an `input` frame
     * only while the tab's socket is open.
     */
    method SendInput(id: nat, data: string) returns (sent: Option<Frame>)
      requires Valid()
      ensures sent.Some? <==> id in tabs && tabs[id].hasTerm && tabs[id].socketOpen
      ensures sent.Some? ==> sent.value == InputFrame(data)
    {
      if id in tabs && tabs[id].hasTerm && tabs[id].hasSocket && tabs[id].socketOpen {
        return Some(InputFrame(data));
      }
      return None;
    }

    /**
     * The widget's `onResize` and the fit timer after a terminal is made:
     * a `resize` frame goes out only while the tab's socket is open.
     */
    method Resize(id: nat, cols: int, rows: int) returns (sent: Option<Frame>)
      requires Valid()
      ensures sent.Some? <==> id in tabs && tabs[id].hasTerm && tabs[id].socketOpen
      ensures sent.Some? ==> sent.value == ResizeFrame(cols, rows)
    {
      if id in tabs && tabs[id].hasTerm && tabs[id].hasSocket && tabs[id].socketOpen {
        return Some(ResizeFrame(cols, rows));
      }
      return None;
    }
  }

  /** A strictly ascending sequence holding exactly the keys of `m` is as long as `m`. */
  lemma {:induction false} DistinctKeysCount<V>(ids: seq<nat>, m: map<nat, V>)
    requires forall i, j :: 0 <= i < j < |ids| ==> ids[i] < ids[j]
    requires forall k :: k in m <==> k in ids
    ensures |ids| == |m|
  {
    if ids == [] {
      assert m.Keys == {};
    } else {
      var last := ids[|ids| - 1];
      var rest := ids[..|ids| - 1];
      assert forall k :: k in rest ==> k < last;
      var m' := m - {last};
      assert forall k :: k in m' <==> k in rest by {
        forall k ensures k in m' <==> k in rest {
          if k in rest {
            assert k in ids;
          }
          if k in ids && k != last {
            var i :| 0 <= i < |ids| && ids[i] == k;
            assert i < |ids| - 1;
            assert rest[i] == k;
          }
        }
      }
      DistinctKeysCount(rest, m');
      RemoveOneKey(m, last);
    }
  }

  /**
   * The last of a strictly ascending listing of `keys`, all at most
   * `bound`, is the largest key, the one `LargestUpTo` finds.
   */
  lemma LastIdIsLargest(ids: seq<nat>, keys: set<nat>, bound: nat)
    requires forall i, j :: 0 <= i < j < |ids| ==> ids[i] < ids[j]
    requires forall k :: k in keys <==> k in ids
    requires ids != [] && forall k :: k in keys ==> k <= bound
    ensures LargestUpTo(keys, bound) == Some(ids[|ids| - 1])
  {
    var last := ids[|ids| - 1];
    assert last in keys;
    var r := LargestUpTo(keys, bound);
    assert r.value in ids;
    var i :| 0 <= i < |ids| && ids[i] == r.value;
  }
}
