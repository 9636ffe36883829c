/**
 * Properties of the tab engine that span several events: the current
 * connect timer runs only while a tab is connecting, which every action
 * and event keeps except a stale timer firing; the disconnect button is
 * never enabled on a connecting tab, so it cannot break that rule; ids
 * are never reused; a pending marker can be lost to another tab's late
 * `connected` frame; and complete connection scenarios, one of them
 * ending with a stale timer tearing down a connected session.
 */
module TabFacts {
  import opened Wrappers
  import opened Tabs

  /** Every live tab with an armed connect timer is connecting. */
  predicate TimerOnlyWhileConnecting(r: Registry) {
    forall id :: id in r.tabs && r.tabs[id].timerArmed ==> r.tabs[id].state == Connecting
  }

  lemma CreateKeepsTimerRule(r: Registry)
    requires Core(r) && TimerOnlyWhileConnecting(r)
    ensures TimerOnlyWhileConnecting(CreateTab(r).0)
  {
    var (r', created) := CreateTab(r);
    if created.Some? {
      forall id | id in r'.tabs && r'.tabs[id].timerArmed
        ensures r'.tabs[id].state == Connecting
      {
        assert id in r.tabs;
      }
    }
  }

  /** Connecting arms the timer of a tab it also puts in the connecting state. */
  lemma ConnectKeepsTimerRule(r: Registry, form: FormInput)
    requires Valid(r) && TimerOnlyWhileConnecting(r)
    ensures TimerOnlyWhileConnecting(Connect(r, form))
  {
    var a := AttemptOf(form);
    if FormError(a).None? {
      var c := StartAttempt(r, a);
      assert Connect(r, form) == c;
      if r.pending.Some? {
        var p := r.pending.value;
        UpdateKeepsTimerRule(r, c, p, Launched(r.tabs[p], a));
      } else if |r.tabs| < MaxTabs {
        UpdateKeepsTimerRule(r, c, r.counter + 1, Launched(NewTab(), a));
      }
    }
  }

  /** Writing one tab that is connecting, or has no timer, keeps the rule. */
  lemma UpdateKeepsTimerRule(r: Registry, r': Registry, id: nat, t: Tab)
    requires TimerOnlyWhileConnecting(r) && r'.tabs == r.tabs[id := t]
    requires t.timerArmed ==> t.state == Connecting
    ensures TimerOnlyWhileConnecting(r')
  {
  }

  /** Opening the socket leaves every timer and state alone. */
  lemma OpenKeepsTimerRule(r: Registry, id: nat)
    requires Valid(r) && TimerOnlyWhileConnecting(r)
    ensures TimerOnlyWhileConnecting(OnOpen(r, id).0)
  {
    var o := OnOpen(r, id).0;
    if id in r.tabs && r.tabs[id].hasSocket {
      assert forall k :: k in o.tabs && k != id ==> o.tabs[k] == r.tabs[k];
    }
  }

  /** Writing output leaves every timer and state alone. */
  lemma OutputKeepsTimerRule(r: Registry, id: nat, data: string)
    requires TimerOnlyWhileConnecting(r)
    ensures TimerOnlyWhileConnecting(OnOutput(r, id, data))
  {
    var o := OnOutput(r, id, data);
    if Handled(r, id).Some? && id in r.tabs {
      assert forall k :: k in o.tabs && k != id ==> o.tabs[k] == r.tabs[k];
    }
  }

  /** A `connected` frame disarms the timer of the tab it connects. */
  lemma ConnectedKeepsTimerRule(r: Registry, id: nat)
    requires TimerOnlyWhileConnecting(r)
    ensures TimerOnlyWhileConnecting(OnConnected(r, id))
  {
    var c := OnConnected(r, id);
    if Handled(r, id).Some? && id in r.tabs {
      assert forall k :: k in c.tabs && k != id ==> c.tabs[k] == r.tabs[k];
    }
  }

  /** An `error` frame disarms the timer. */
  lemma ErrorFrameKeepsTimerRule(r: Registry, id: nat, message: string)
    requires TimerOnlyWhileConnecting(r)
    ensures TimerOnlyWhileConnecting(OnErrorFrame(r, id, message))
  {
    var h := Handled(r, id);
    if h.Some? && id in r.tabs {
      var e := OnErrorFrame(r, id, message);
      assert e.tabs == r.tabs[id := h.value.(timerArmed := false, state := Form)];
    }
  }

  /** A socket error disarms the timer. */
  lemma SocketErrorKeepsTimerRule(r: Registry, id: nat)
    requires TimerOnlyWhileConnecting(r)
    ensures TimerOnlyWhileConnecting(OnSocketError(r, id))
  {
    var h := Handled(r, id);
    if h.Some? && id in r.tabs {
      var t := h.value;
      var e := OnSocketError(r, id);
      if t.state == Connecting {
        assert e.tabs == r.tabs[id := t.(timerArmed := false, state := Form)];
      } else {
        assert e.tabs == r.tabs[id := t.(timerArmed := false)];
      }
    } else {
      assert OnSocketError(r, id).tabs == r.tabs;
    }
  }

  /** A socket close and the timeout disarm the timer. */
  lemma CloseAndTimeoutKeepTimerRule(r: Registry, id: nat)
    requires TimerOnlyWhileConnecting(r)
    ensures TimerOnlyWhileConnecting(OnClose(r, id))
    ensures TimerOnlyWhileConnecting(OnTimeout(r, id))
  {
  }

  /** Closing a tab and cancelling the pending one keep the rule. */
  lemma CloseKeepsTimerRule(r: Registry, id: nat)
    requires Valid(r) && TimerOnlyWhileConnecting(r)
    ensures TimerOnlyWhileConnecting(CloseTab(r, id))
    ensures TimerOnlyWhileConnecting(CancelNewTab(r))
  {
    if r.pending.Some? {
      var r1 := r.(pending := None);
      assert TimerOnlyWhileConnecting(CloseTab(r1, r.pending.value));
    }
  }

  /** Switching tabs and the new-tab button keep the rule. */
  lemma SwitchAndRequestKeepTimerRule(r: Registry, id: nat)
    requires Valid(r) && TimerOnlyWhileConnecting(r)
    ensures TimerOnlyWhileConnecting(SwitchTab(r, id))
    ensures TimerOnlyWhileConnecting(RequestNewTab(r))
  {
    CreateKeepsTimerRule(r);
  }

  /** Duplicating a tab keeps the rule. */
  lemma DuplicateKeepsTimerRule(r: Registry, id: nat)
    requires Valid(r) && TimerOnlyWhileConnecting(r)
    ensures TimerOnlyWhileConnecting(DuplicateTab(r, id).0)
  {
    CreateKeepsTimerRule(r);
  }

  /**
   * `disconnectTab` does not clear the timer: a connecting tab that is
   * disconnected keeps it armed, and when it fires the disconnected tab is
   * put back in the form state with "Connection timed out" shown. The
   * disconnect button never runs it on a connecting tab
   * (`ClickKeepsTimerRule`).
   */
  lemma DisconnectLeavesTimerArmed(r: Registry, id: nat)
    requires Valid(r) && id in r.tabs && r.tabs[id].state == Connecting && r.tabs[id].timerArmed
    ensures var d := DisconnectTab(r, id);
      && !TimerOnlyWhileConnecting(d)
      && d.tabs[id].state == Disconnected
      && OnTimeout(d, id).tabs[id].state == Form
      && OnTimeout(d, id).error == Some(TimedOut)
  {
    var d := DisconnectTab(r, id);
    assert d.tabs[id].timerArmed;
  }

  /**
   * Ids are never reused: `connect()` hands out ids only through
   * `createTab`, whose new id is above every id ever handed out, open or
   * closed, and it leaves the closed tabs alone.
   */
  lemma ConnectUsesFreshIds(r: Registry, form: FormInput)
    requires Valid(r)
    ensures var c := Connect(r, form);
      && c.counter >= r.counter && c.detached == r.detached
      && forall k :: k in c.tabs && k !in r.tabs ==> k == r.counter + 1 && k !in r.detached
  {
    var a := AttemptOf(form);
    if FormError(a).None? {
      var r1 := r.(error := None, connectEnabled := false);
      if r1.pending.None? {
        assert Connect(r, form) == LaunchOnNewTab(r1, a);
      }
    }
  }

  /**
   * A closed tab's `connected` frame still reaches the page: it clears the
   * pending marker even when it names another tab, which stays open while
   * nothing is pending any more.
   */
  lemma LateConnectedClearsPending(r: Registry, closed: nat, other: nat)
    requires Valid(r) && closed in r.tabs && r.tabs[closed].attempt.Some?
    requires r.pending == Some(other) && other != closed
    ensures var c := CloseTab(r, closed);
      && c.pending == Some(other)
      && OnConnected(c, closed).pending.None?
      && other in OnConnected(c, closed).tabs
  {
    var c := CloseTab(r, closed);
    assert Handled(c, closed) == Some(Closed(r.tabs[closed]));
  }

  /** `requestNewTab` replaces the pending marker without closing the tab it named. */
  lemma RequestKeepsEarlierPendingTab(r: Registry)
    requires Valid(r) && r.pending.Some? && |r.tabs| < MaxTabs
    ensures r.pending.value in RequestNewTab(r).tabs
    ensures RequestNewTab(r).pending == Some(r.counter + 1) && r.counter + 1 != r.pending.value
  {
    assert r.pending.value <= r.counter;
  }

  /** A well-formed form on the loaded page. */
  predicate GoodForm(form: FormInput) {
    FormError(AttemptOf(form)).None?
  }

  /**
   * From the loaded page: connect, the socket opens and the server answers
   * `connected`. Tab 1 is then connected and active, labelled
   * `user@host`, with the label in the status line, the disconnect
   * button enabled, the timer cleared and nothing pending.
   */
  lemma FirstConnection(form: FormInput)
    requires GoodForm(form)
    ensures var a := AttemptOf(form);
      var r := OnConnected(OnOpen(Connect(Initial(), form), 1).0, 1);
      && r.tabs.Keys == {1} && r.active == Some(1) && r.pending.None?
      && r.tabs[1].state == Connected && !r.tabs[1].timerArmed && r.tabs[1].socketOpen
      && r.tabs[1].title == a.user + "@" + a.host
      && r.statusText == a.user + "@" + a.host && r.disconnectEnabled
      && r.error.None? && !r.connectEnabled
  {
    var a := AttemptOf(form);
    ConnectFromInitial(form);
    OpenAndConnectOnly(Connect(Initial(), form),
                       Launched(NewTab(), a));
  }

  /** The socket of the only tab, inactive and connecting, opens and the server answers `connected`. */
  lemma OpenAndConnectOnly(r: Registry, t: Tab)
    requires Valid(r) && r.tabs == map[1 := t] && r.active.None?
    requires t.hasSocket && t.attempt.Some? && t.state == Connecting
    ensures var c := OnConnected(OnOpen(r, 1).0, 1);
      && c.tabs.Keys == {1} && c.active == Some(1) && c.pending.None?
      && c.tabs[1].state == Connected && !c.tabs[1].timerArmed && c.tabs[1].socketOpen
      && c.tabs[1].title == t.title && c.statusText == t.title && c.disconnectEnabled
      && c.tabs[1].staleTimers == t.staleTimers && c.tabs[1].hasSocket
      && c.error == r.error && c.connectEnabled == r.connectEnabled
  {
    var r2 := OnOpen(r, 1).0;
    assert r2 == r.(tabs := map[1 := t.(socketOpen := true)]);
    ConnectedOnly(r2, t.(socketOpen := true));
  }

  /** The server answers `connected` for the only tab, which is inactive and connecting. */
  lemma ConnectedOnly(r: Registry, t: Tab)
    requires r.tabs == map[1 := t] && r.active.None?
    requires t.attempt.Some? && t.state == Connecting
    ensures var c := OnConnected(r, 1);
      && c.tabs.Keys == {1} && c.active == Some(1) && c.pending.None?
      && c.tabs[1].state == Connected && !c.tabs[1].timerArmed && c.tabs[1].socketOpen == t.socketOpen
      && c.tabs[1].title == t.title && c.statusText == t.title && c.disconnectEnabled
      && c.tabs[1].staleTimers == t.staleTimers && c.tabs[1].hasSocket == t.hasSocket
      && c.error == r.error && c.connectEnabled == r.connectEnabled
  {
    assert Handled(r, 1) == Some(t);
    var a := t.attempt.value;
    var t2 := t.(timerArmed := false, state := Connected,
                 connInfo := Some(ConnInfo(a.host, a.port, a.user, a.authType, a.keyPath)), hasTerm := true, written := []);
    assert OnConnected(r, 1).tabs == map[1 := t2];
  }

  /** `connect()` on the loaded page makes tab 1, pending and connecting, and activates nothing. */
  lemma ConnectFromInitial(form: FormInput)
    requires GoodForm(form)
    ensures var a := AttemptOf(form);
      var r := Connect(Initial(), form);
      && r.tabs == map[1 := Launched(NewTab(), a)]
      && r.counter == 1 && r.pending == Some(1) && r.active.None? && r.error.None? && !r.connectEnabled
  {
    var a := AttemptOf(form);
    var r0 := Initial();
    assert Connect(r0, form) == LaunchOnNewTab(r0.(error := None, connectEnabled := false), a);
  }

  /**
   * The same through the new-tab button while tab 1 is open: the new tab
   * is already active when its `connected` frame arrives, so `switchTab`
   * does nothing and the status line stays empty with the disconnect
   * button disabled, although the tab is connected.
   */
  lemma RequestedTabKeepsStaleStatus(r: Registry, form: FormInput)
    requires Valid(r) && |r.tabs| < MaxTabs && GoodForm(form)
    ensures var n := r.counter + 1;
      var c := OnConnected(OnOpen(Connect(RequestNewTab(r), form), n).0, n);
      && c.active == Some(n) && c.tabs[n].state == Connected
      && c.statusText == "" && !c.disconnectEnabled
  {
    var n := r.counter + 1;
    var r2 := Connect(RequestNewTab(r), form);
    ConnectOnRequestedTab(r, form);
    var r3 := OnOpen(r2, n).0;
    assert r3.tabs[n] == r2.tabs[n].(socketOpen := true);
    assert Handled(r3, n) == Some(r3.tabs[n]);
  }

  /**
   * `connect()` on a tab from the new-tab button: that tab is connecting
   * with a socket, and is still the active one with an empty status line.
   */
  lemma ConnectOnRequestedTab(r: Registry, form: FormInput)
    requires Valid(r) && |r.tabs| < MaxTabs && GoodForm(form)
    ensures var n := r.counter + 1;
      var c := Connect(RequestNewTab(r), form);
      && n in c.tabs && c.tabs[n].hasSocket && c.tabs[n].attempt.Some?
      && c.active == Some(n) && c.statusText == "" && !c.disconnectEnabled
  {
    var n := r.counter + 1;
    var a := AttemptOf(form);
    var r1 := RequestNewTab(r);
    assert r1.pending == Some(n) && r1.active == Some(n);
    assert r1.statusText == "" && !r1.disconnectEnabled;
    var c := StartAttempt(r1, a);
    assert Connect(r1, form) == c;
    assert c.tabs == r1.tabs[n := Launched(r1.tabs[n], a)];
  }

  // ---------------------------------------------------------------------
  // The disconnect button
  // ---------------------------------------------------------------------

  /**
   * What keeps the disconnect button away from a connecting tab: the
   * pending tab is never connected (only a `connected` frame connects a
   * tab, and it clears the marker), and while the button is enabled the
   * active tab is neither connecting nor the pending one.
   */
  predicate ButtonSafe(r: Registry) {
    && (r.pending.Some? && r.pending.value in r.tabs ==> r.tabs[r.pending.value].state != Connected)
    && (r.disconnectEnabled && r.active.Some? && r.active.value in r.tabs ==>
          r.tabs[r.active.value].state != Connecting && r.active != r.pending)
  }

  lemma InitialIsButtonSafe()
    ensures ButtonSafe(Initial())
  {
  }

  /** `switchTab` enables the button only for a connected tab, which is never the pending one. */
  lemma SwitchKeepsButtonSafe(r: Registry, id: nat)
    requires ButtonSafe(r)
    ensures ButtonSafe(SwitchTab(r, id))
  {
  }

  lemma CreateKeepsButtonSafe(r: Registry)
    requires Core(r) && ButtonSafe(r)
    ensures ButtonSafe(CreateTab(r).0)
  {
  }

  /** Closing a tab detaches it and switches to the largest remaining id. */
  lemma CloseKeepsButtonSafe(r: Registry, id: nat)
    requires Valid(r) && ButtonSafe(r)
    ensures ButtonSafe(CloseTab(r, id))
  {
    if id in r.tabs {
      var d := Detach(r, id);
      DetachKeepsCore(r, id);
      assert ButtonSafe(d);
      if |d.tabs| > 0 && r.active == Some(id) {
        SwitchKeepsButtonSafe(d, LargestUpTo(d.tabs.Keys, r.counter).value);
      }
    }
  }

  /** Cancelling the new tab closes the pending tab the same way. */
  lemma CancelKeepsButtonSafe(r: Registry)
    requires Valid(r) && ButtonSafe(r)
    ensures ButtonSafe(CancelNewTab(r))
  {
    if r.pending.Some? {
      var p := r.pending.value;
      var r1 := r.(pending := None);
      var d := Detach(r1, p);
      DetachKeepsCore(r1, p);
      assert ButtonSafe(d);
      if |d.tabs| > 0 && r.active == Some(p) {
        SwitchKeepsButtonSafe(d, LargestUpTo(d.tabs.Keys, r.counter).value);
      }
    }
  }

  /** The new tab is pending, active and in the form state, so the button is disabled. */
  lemma RequestAndDuplicateKeepButtonSafe(r: Registry, id: nat)
    requires Valid(r) && ButtonSafe(r)
    ensures ButtonSafe(RequestNewTab(r))
    ensures ButtonSafe(DuplicateTab(r, id).0)
  {
  }

  /**
   * `connect()` makes the pending tab connecting: if that tab is active,
   * the button was already disabled; a new tab is not active.
   */
  lemma ConnectKeepsButtonSafe(r: Registry, form: FormInput)
    requires Valid(r) && ButtonSafe(r)
    ensures ButtonSafe(Connect(r, form))
  {
    var a := AttemptOf(form);
    if FormError(a).None? {
      var c := StartAttempt(r, a);
      assert Connect(r, form) == c;
      if r.pending.Some? {
        var p := r.pending.value;
        LaunchKeepsButtonSafe(r, c, p, Launched(r.tabs[p], a));
      } else if |r.tabs| < MaxTabs {
        LaunchKeepsButtonSafe(r, c, r.counter + 1, Launched(NewTab(), a));
      }
    }
  }

  /** Tab `id` starts connecting as the pending tab; it was pending already, or is new and not active. */
  lemma LaunchKeepsButtonSafe(r: Registry, c: Registry, id: nat, t: Tab)
    requires ButtonSafe(r) && t.state == Connecting
    requires c.tabs == r.tabs[id := t] && c.pending == Some(id)
    requires c.active == r.active && c.disconnectEnabled == r.disconnectEnabled
    requires (r.pending == Some(id) && id in r.tabs) || (id !in r.tabs && (r.active.Some? ==> r.active.value in r.tabs))
    ensures ButtonSafe(c)
  {
  }

  /** A `connected` frame clears the marker and enables the button only with the tab connected. */
  lemma ConnectedKeepsButtonSafe(r: Registry, id: nat)
    requires ButtonSafe(r)
    ensures ButtonSafe(OnConnected(r, id))
  {
  }

  /** Opening the socket and output change no tab's state. */
  lemma OpenAndOutputKeepButtonSafe(r: Registry, id: nat, data: string)
    requires Valid(r) && ButtonSafe(r)
    ensures ButtonSafe(OnOpen(r, id).0)
    ensures ButtonSafe(OnOutput(r, id, data))
  {
  }

  /** An `error` frame puts a tab back in the form state. */
  lemma ErrorFrameKeepsButtonSafe(r: Registry, id: nat, message: string)
    requires ButtonSafe(r)
    ensures ButtonSafe(OnErrorFrame(r, id, message))
  {
  }

  /** The socket's `close` event turns a connected tab into a disconnected one, nothing else. */
  lemma CloseEventKeepsButtonSafe(r: Registry, id: nat)
    requires ButtonSafe(r)
    ensures ButtonSafe(OnClose(r, id))
  {
  }

  /** The socket's `error` event puts a connecting tab back in the form state. */
  lemma SocketErrorKeepsButtonSafe(r: Registry, id: nat)
    requires ButtonSafe(r)
    ensures ButtonSafe(OnSocketError(r, id))
  {
  }

  /** Both kinds of timer put a tab back in the form state. */
  lemma TimeoutsKeepButtonSafe(r: Registry, id: nat)
    requires ButtonSafe(r)
    ensures ButtonSafe(OnTimeout(r, id))
    ensures ButtonSafe(OnStaleTimeout(r, id))
  {
  }

  /** A click disables the button, and only the active tab's state changes. */
  lemma ClickKeepsButtonSafe(r: Registry)
    requires ButtonSafe(r)
    ensures ButtonSafe(DisconnectClick(r))
  {
  }

  /** With the button safe, a click never reaches a connecting tab. */
  lemma ClickIgnoredWhileConnecting(r: Registry)
    requires ButtonSafe(r) && r.active.Some? && r.active.value in r.tabs
    requires r.tabs[r.active.value].state == Connecting
    ensures DisconnectClick(r) == r
  {
  }

  /**
   * The disconnect button keeps the timer rule: it acts only on an active
   * tab that is not connecting, whose timer is therefore not armed.
   */
  lemma ClickKeepsTimerRule(r: Registry)
    requires Valid(r) && ButtonSafe(r) && TimerOnlyWhileConnecting(r)
    ensures TimerOnlyWhileConnecting(DisconnectClick(r))
  {
    if r.disconnectEnabled && r.active.Some? {
      var id := r.active.value;
      var d := DisconnectClick(r);
      UpdateKeepsTimerRule(r, d, id, r.tabs[id].(state := Disconnected, hasSocket := false, socketOpen := false));
    }
  }

  /**
   * A tab from the new-tab button that is connecting is active with the
   * button disabled, so a click on it does nothing.
   */
  lemma ClickIgnoredOnRequestedTab(r: Registry, form: FormInput)
    requires Valid(r) && |r.tabs| < MaxTabs && GoodForm(form)
    ensures var c := Connect(RequestNewTab(r), form);
      DisconnectClick(c) == c
  {
    ConnectOnRequestedTab(r, form);
  }

  // ---------------------------------------------------------------------
  // Stale connect timers
  // ---------------------------------------------------------------------

  /** A second `connect()` on the loaded page's first tab, while its timer is pending. */
  lemma ConnectTwiceFromInitial(form: FormInput)
    requires GoodForm(form)
    ensures var a := AttemptOf(form);
      var r := Connect(Connect(Initial(), form), form);
      && r.tabs == map[1 := Launched(Launched(NewTab(), a), a)]
      && r.pending == Some(1) && r.active.None? && Valid(r)
  {
    var a := AttemptOf(form);
    var r1 := Connect(Initial(), form);
    ConnectFromInitial(form);
    assert Connect(r1, form) == StartAttempt(r1, a);
  }

  /**
   * Enter reaches `connect()` while the connect button is disabled. A
   * second `connect()` on a connecting tab overwrites the timer id, so
   * the first timer is stale; when it fires it puts the tab back in the
   * form state while the current timer is still armed.
   */
  lemma StaleTimeoutBreaksTimerRule(form: FormInput)
    requires GoodForm(form)
    ensures var r := Connect(Connect(Initial(), form), form);
      && TimerOnlyWhileConnecting(r) && 1 in r.tabs && r.tabs[1].staleTimers == 1
      && var s := OnStaleTimeout(r, 1);
         && 1 in s.tabs && s.tabs[1].state == Form && s.tabs[1].timerArmed
         && !TimerOnlyWhileConnecting(s)
  {
    var a := AttemptOf(form);
    ConnectTwiceFromInitial(form);
    var r := Connect(Connect(Initial(), form), form);
    assert r.tabs[1] == Launched(Launched(NewTab(), a), a);
    assert Record(r, 1) == Some(r.tabs[1]);
  }

  /**
   * The stale timer tears down a connected session: after connect,
   * connect again, the socket opening and `connected`, the first timer
   * fires. The tab loses its socket and is back in the form state with
   * "Connection timed out" shown, while the status line still shows it
   * connected and the disconnect button stays enabled.
   */
  lemma StaleTimeoutEndsConnection(form: FormInput)
    requires GoodForm(form)
    ensures var c := OnConnected(OnOpen(Connect(Connect(Initial(), form), form), 1).0, 1);
      && 1 in c.tabs && c.tabs[1].state == Connected && c.tabs[1].hasSocket && c.disconnectEnabled
      && var s := OnStaleTimeout(c, 1);
         && 1 in s.tabs && s.tabs[1].state == Form && !s.tabs[1].hasSocket
         && s.error == Some(TimedOut) && s.statusText == c.statusText && s.disconnectEnabled
  {
    var a := AttemptOf(form);
    ConnectTwiceFromInitial(form);
    var r := Connect(Connect(Initial(), form), form);
    var t := Launched(Launched(NewTab(), a), a);
    OpenAndConnectOnly(r, t);
    var c := OnConnected(OnOpen(r, 1).0, 1);
    assert Record(c, 1) == Some(c.tabs[1]);
  }
}
