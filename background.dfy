/**
 * The background page of the extension: the registry that pairs, per browser tab,
 * the port of the devtools page with the port of the content script and relays
 * between them, and the handler of one-shot runtime messages that feeds and
 * queries the component pool.
 */
module Background {
  import opened Wrappers
  import opened TabKey
  import opened Messages
  import opened Relay
  import opened ComponentPool

  /** The two slots of a tab's registry entry. */
  datatype Slot = Devtools | ContentScript

  /** `ports[tab]`: `{devtools, 'content-script'}`, null while that side has not connected. */
  datatype Slots = Slots(devtools: Port?, contentScript: Port?)

  /** The entry onConnect creates for a tab it has not seen. */
  const Unpaired: Slots := Slots(null, null)

  function Get(s: Slots, slot: Slot): Port?
  {
    match slot
    case Devtools => s.devtools
    case ContentScript => s.contentScript
  }

  function Other(slot: Slot): Slot
  {
    match slot
    case Devtools => ContentScript
    case ContentScript => Devtools
  }

  /** Both sides of the tab have connected: the condition for doublePipe. */
  predicate Complete(s: Slots)
    ensures Complete(s) <==> forall slot :: Get(s, slot) != null
  {
    assert Get(s, Devtools) == s.devtools && Get(s, ContentScript) == s.contentScript;
    s.devtools != null && s.contentScript != null
  }

  /**
   * Where onConnect files a port with this name and sender tab: a numeric name makes
   * it the devtools port of the tab it names, any other name the content-script port
   * of its sender's tab. None when the port is not numeric and its sender has no tab:
   * reading `port.sender.tab.id` then throws and the port is never stored.
   */
  function Classify(name: string, senderTab: Option<int>): (r: Option<(string, Slot)>)
    ensures r.Some? && r.value.1 == Devtools <==> IsNumeric(name)
    ensures r.Some? && r.value.1 == Devtools ==> r.value.0 == name
    ensures r.Some? && r.value.1 == ContentScript <==> !IsNumeric(name) && senderTab.Some?
    ensures r.Some? && r.value.1 == ContentScript ==> r.value.0 == IntToString(senderTab.value)
    ensures r.Some? ==> IsNumeric(r.value.0)
  {
    if IsNumeric(name) then Some((name, Devtools))
    else if senderTab.Some? then
      IntToStringRoundTrip(senderTab.value);
      Some((IntToString(senderTab.value), ContentScript))
    else None
  }

  /**
   * The devtools page of tab `n` (its port named after `n`) and a content script
   * running in tab `n` (any non-numeric port name) are filed under the same key,
   * and under no key that another tab's ports use.
   */
  lemma DevtoolsMeetsContentScript(n: int, csName: string, devtoolsSender: Option<int>)
    requires !IsNumeric(csName)
    ensures Classify(IntToString(n), devtoolsSender) == Some((IntToString(n), Devtools))
    ensures Classify(csName, Some(n)) == Some((IntToString(n), ContentScript))
    ensures forall m :: m != n ==> Classify(csName, Some(m)).value.0 != IntToString(n)
  {
    IntToStringRoundTrip(n);
    forall m | m != n ensures Classify(csName, Some(m)).value.0 != IntToString(n) {
      IntToStringInjective(m, n);
    }
  }

  /** `s` with `slot` set to `port`. */
  function Put(s: Slots, slot: Slot, port: Port): (r: Slots)
    ensures Get(r, slot) == port && Get(r, Other(slot)) == Get(s, Other(slot))
  {
    match slot
    case Devtools => s.(devtools := port)
    case ContentScript => s.(contentScript := port)
  }

  /**
   * The registry after onConnect files `port` in `slot` of `tab`: an unseen tab gets
   * an entry whose other slot is null; no other slot and no other tab changes.
   */
  function Store(ports: map<string, Slots>, tab: string, slot: Slot, port: Port): (r: map<string, Slots>)
    ensures r.Keys == ports.Keys + {tab}
    ensures forall t :: t in ports && t != tab ==> r[t] == ports[t]
    ensures Get(r[tab], slot) == port
    ensures Get(r[tab], Other(slot)) == if tab in ports then Get(ports[tab], Other(slot)) else null
  {
    ports[tab := Put(if tab in ports then ports[tab] else Unpaired, slot, port)]
  }

  /**
   * Filing a port completes its tab's pair exactly when the opposite slot was
   * already filled, whether by a live port or by one that has since disconnected.
   */
  lemma StoreCompletes(ports: map<string, Slots>, tab: string, slot: Slot, port: Port)
    ensures Complete(Store(ports, tab, slot, port)[tab])
        <==> tab in ports && Get(ports[tab], Other(slot)) != null
  {
    var r := Store(ports, tab, slot, port)[tab];
    assert Complete(r) <==> Get(r, slot) != null && Get(r, Other(slot)) != null by {
      match slot
      case Devtools =>
      case ContentScript =>
    }
  }

  /** What the runtime message handler does with a request, tested in this order. */
  datatype Action =
    | SetPoolKey(key: string)                        // reactComponentPool.setKey(request.key)
    | AddComponent(name: string)                     // reactComponentPool.add(request.element.displayName)
    | QueryComponents                                // sendResponse({namesMap: reactComponentPool.all()})
    | SetIconAndPopup(buildType: string, tab: int)   // setIconAndPopup(request.reactBuildType, tab.id)
    | ForwardToDevtools(tab: int)                    // ports[tab.id]?.devtools?.postMessage(request)
    | NoAction

  const FetchComplete: string := "fetch-file-with-cache-complete"
  const FetchError: string := "fetch-file-with-cache-error"

  /** The branch of the runtime message handler that `request` from `senderTab` takes. */
  function Route(request: Message, senderTab: Option<int>): (a: Action)
    ensures a.SetPoolKey? <==> request.setReactComponentPoolKey
    ensures a.SetPoolKey? ==> a.key == request.key
    ensures a.AddComponent? <==> !request.setReactComponentPoolKey && request.reactComponent
    ensures a.AddComponent? ==> a.name == request.displayName
    ensures a.QueryComponents? <==>
      !request.setReactComponentPoolKey && !request.reactComponent && request.queryReactComponents
    ensures a.SetIconAndPopup? <==>
      && !request.setReactComponentPoolKey && !request.reactComponent && !request.queryReactComponents
      && senderTab.Some? && request.hasDetectedReact
    ensures a.SetIconAndPopup? ==> a.buildType == request.reactBuildType && a.tab == senderTab.value
    ensures a.ForwardToDevtools? <==>
      && !request.setReactComponentPoolKey && !request.reactComponent && !request.queryReactComponents
      && senderTab.Some? && !request.hasDetectedReact
      && (request.payloadType == Some(FetchComplete) || request.payloadType == Some(FetchError))
    ensures a.ForwardToDevtools? ==> a.tab == senderTab.value
  {
    if request.setReactComponentPoolKey then SetPoolKey(request.key)
    else if request.reactComponent then AddComponent(request.displayName)
    else if request.queryReactComponents then QueryComponents
    else if senderTab.Some? then
      if request.hasDetectedReact then SetIconAndPopup(request.reactBuildType, senderTab.value)
      else if request.payloadType == Some(FetchComplete) || request.payloadType == Some(FetchError) then
        ForwardToDevtools(senderTab.value)
      else NoAction
    else NoAction
  }

  class Background {
    var ports: map<string, Slots>    // the module-level `ports` object
    var nextPipe: nat                // how many times doublePipe has run
    const pool: ReactComponentPool   // the module-level `reactComponentPool`

    /** Every port sits under the key and in the slot that its name and sender give it. */
    ghost predicate Valid()
      reads this, pool
    {
      && pool.Valid()
      && forall tab, slot :: tab in ports && Get(ports[tab], slot) != null ==>
           Classify(Get(ports[tab], slot).name, Get(ports[tab], slot).senderTab) == Some((tab, slot))
    }

    constructor ()
      ensures Valid() && fresh(pool)
      ensures ports == map[] && nextPipe == 0 && pool.State() == Initial()
    {
      ports := map[];
      nextPipe := 0;
      pool := new ReactComponentPool();
    }

    /** The port already filed opposite to where `port` goes, if any: doublePipe's other end. */
    ghost function Partner(port: Port): set<Port>
      reads this
    {
      match Classify(port.name, port.senderTab)
      case None => {}
      case Some((tab, slot)) =>
        if tab in ports && Get(ports[tab], Other(slot)) != null then {Get(ports[tab], Other(slot))} else {}
    }

    /**
     * chrome.runtime.onConnect: file the new port and, once both sides of its tab are
     * filed, relay between them. A devtools port also asks for the content script to be
     * injected into its tab (`install`).
     */
    method OnConnect(port: Port) returns (install: Option<int>, piped: bool)
      requires Valid()
      modifies this, port, Partner(port)
      ensures Valid()
      ensures Classify(port.name, port.senderTab).None? ==>
        && ports == old(ports) && nextPipe == old(nextPipe)
        && install == None && !piped
      ensures Classify(port.name, port.senderTab).Some? ==>
        var (tab, slot) := Classify(port.name, port.senderTab).value;
        && ports == Store(old(ports), tab, slot, port)
        && install == (if slot == Devtools then Some(ParseInt(port.name)) else None)
        && piped == Complete(ports[tab])
      ensures !piped ==>
        && nextPipe == old(nextPipe)
        && unchanged(port) && unchanged(old(Partner(port)))
      ensures piped ==>
        var (tab, slot) := Classify(port.name, port.senderTab).value;
        var dt, cs := ports[tab].devtools, ports[tab].contentScript;
        && dt != null && cs != null && dt != cs
        && nextPipe == old(nextPipe) + 1
        && dt.onMessage == old(dt.onMessage) + [ForwardTo(old(nextPipe), cs)]
        && cs.onMessage == old(cs.onMessage) + [ForwardTo(old(nextPipe), dt)]
        && dt.onDisconnect == old(dt.onDisconnect) + [ShutdownOf(old(nextPipe), dt, cs)]
        && cs.onDisconnect == old(cs.onDisconnect) + [ShutdownOf(old(nextPipe), dt, cs)]
        && dt.outbox == old(dt.outbox) && cs.outbox == old(cs.outbox)
        && dt.connected == old(dt.connected) && cs.connected == old(cs.connected)
    {
      var c := Classify(port.name, port.senderTab);
      if c.None? {
        install, piped := None, false;
        return;
      }
      var (tab, slot) := c.value;
      install := if slot == Devtools then Some(ParseInt(port.name)) else None;
      if tab !in ports {
        ports := ports[tab := Unpaired];
      }
      ports := ports[tab := Put(ports[tab], slot, port)];
      piped := Complete(ports[tab]);
      if piped {
        var dt, cs := ports[tab].devtools, ports[tab].contentScript;
        assert Get(ports[tab], Devtools) == dt && Get(ports[tab], ContentScript) == cs;
        DoublePipe(dt, cs, nextPipe);
        nextPipe := nextPipe + 1;
      }
    }

    /** The devtools port filed for the sender's tab, if there is one. */
    ghost function DevtoolsOf(senderTab: Option<int>): set<Port>
      reads this
    {
      if senderTab.Some? && IntToString(senderTab.value) in ports
         && ports[IntToString(senderTab.value)].devtools != null
      then {ports[IntToString(senderTab.value)].devtools}
      else {}
    }

    /**
     * chrome.runtime.onMessage: route the request, act on the pool or the ports, and
     * return true on every path. Only a query sends a response.
     */
    method OnMessage(request: Message, senderTab: Option<int>)
      returns (keepOpen: bool, response: Option<map<string, seq<string>>>, action: Action)
      requires Valid()
      modifies pool, DevtoolsOf(senderTab)
      ensures Valid() && keepOpen
      ensures action == Route(request, senderTab)
      ensures action.SetPoolKey? ==> pool.State() == WithKey(old(pool.State()), action.key)
      ensures action.AddComponent? ==> pool.State() == Added(old(pool.State()), action.name)
      ensures action.QueryComponents? ==>
        && response == Some(Snapshot(old(pool.groups)))
        && pool.State() == PoolState(response.value, old(pool.key))
      ensures !action.QueryComponents? ==> response == None
      ensures !(action.SetPoolKey? || action.AddComponent? || action.QueryComponents?) ==>
        pool.State() == old(pool.State())
      ensures forall q :: q in old(DevtoolsOf(senderTab)) ==>
        && q.outbox == old(q.outbox) + (if action.ForwardToDevtools? && q.connected then [request] else [])
        && q.onMessage == old(q.onMessage) && q.onDisconnect == old(q.onDisconnect)
        && q.connected == old(q.connected)
    {
      keepOpen, response := true, None;
      action := Route(request, senderTab);
      match action
      case SetPoolKey(k) =>
        pool.SetKey(k);
      case AddComponent(name) =>
        pool.Add(name);
      case QueryComponents =>
        var namesMap := pool.All();
        response := Some(namesMap);
      case SetIconAndPopup(_, _) =>
      case ForwardToDevtools(id) =>
        var key := IntToString(id);
        if key in ports && ports[key].devtools != null {
          ports[key].devtools.PostMessage(request);
        }
      case NoAction =>
    }
  }

  /** The keys the two ports of the pairing example are filed under. */
  lemma Tab42Keys()
    ensures Classify("42", None) == Some(("42", Devtools))
    ensures Classify("content-script", Some(42)) == Some(("42", ContentScript))
  {
    assert IsNumeric("42");
    assert !IsNumeric("content-script");
    assert IntToString(42) == "42" by {
      assert NatToString(42) == NatToString(4) + [DigitChar(2)];
    }
  }

  /** Connects the devtools page of tab 42 and then a content script running in tab 42. */
  method ConnectTab42() returns (dt: Port, cs: Port, piped: bool)
    ensures fresh(dt) && fresh(cs) && dt != cs
    ensures dt.onMessage == [ForwardTo(0, cs)] && cs.onMessage == [ForwardTo(0, dt)]
    ensures dt.onDisconnect == [ShutdownOf(0, dt, cs)] && cs.onDisconnect == [ShutdownOf(0, dt, cs)]
    ensures dt.outbox == [] && cs.outbox == [] && dt.connected && cs.connected
    ensures piped
  {
    Tab42Keys();
    var bg := new Background();
    dt := new Port("42", None);
    cs := new Port("content-script", Some(42));
    var install, first := bg.OnConnect(dt);
    install, piped := bg.OnConnect(cs);
  }

  /**
   * A devtools page for tab 42 connects with the port name "42" and a content script
   * in tab 42 connects from that tab: the second connection pairs them. Messages the
   * devtools page sends arrive unchanged, once each and in order, at the content
   * script, and a reply travels the other way.
   */
  method PairingExample(m: Message, n: Message, reply: Message)
    returns (piped: bool, toPage: seq<Message>, toDevtools: seq<Message>)
    ensures piped && toPage == [m, n] && toDevtools == [reply]
  {
    var dt, cs;
    dt, cs, piped := ConnectTab42();
    assert Count(dt.onMessage, cs) == 1 && Count(cs.onMessage, dt) == 1;
    Receive(dt, m);
    Receive(dt, n);
    Receive(cs, reply);
    toPage, toDevtools := cs.outbox, dt.outbox;
  }

  /**
   * The content script of a piped tab disconnects: its shutdown listener removes both
   * forwarders, so nothing is relayed between the two ports any more, and disconnects
   * the devtools port too. Neither outbox changes.
   */
  method ShutdownExample() returns (toPage: seq<Message>, devtoolsConnected: bool, forwarders: nat)
    ensures toPage == [] && !devtoolsConnected && forwarders == 0
  {
    var dt, cs, piped := ConnectTab42();
    var d := ShutdownOf(0, dt, cs);
    assert Ends(cs.onDisconnect) == {dt, cs};
    assert cs.onDisconnect == [] + [d];
    assert CutAll(dt, cs.onDisconnect) == {ForwardTo(0, cs)};
    assert CutAll(cs, cs.onDisconnect) == {ForwardTo(0, dt)};
    RemoteDisconnect(cs);
    assert dt.onMessage == [] by {
      WithoutMembers([ForwardTo(0, cs)], {ForwardTo(0, cs)}, ForwardTo(0, cs));
    }
    assert cs.onMessage == [] by {
      WithoutMembers([ForwardTo(0, dt)], {ForwardTo(0, dt)}, ForwardTo(0, dt));
    }
    toPage, devtoolsConnected, forwarders := cs.outbox, dt.connected, |dt.onMessage| + |cs.onMessage|;
  }
}
