# React DevTools extension background page, modelled in Dafny

This project models the background script of the React DevTools browser extension
(`packages/react-devtools-extensions/src/background.js`). It covers:

- **the port registry.** `chrome.runtime.onConnect` files each connecting port under a tab key.
  A port whose name is numeric is the devtools page of the tab it names. Any other port is
  the content script of its sender's tab. Once both slots of a tab are filled, `doublePipe`
  joins the two ports.
- **the relay.** `doublePipe` installs one forwarding listener on each port and one `shutdown`
  listener per port. `shutdown` removes both forwarders and disconnects both ports.
  The model says exactly what a message arriving on a port delivers to each peer.
  It also says what a remote disconnect does to every port it reaches.
- **`ReactComponentPool`.** It keeps one list of component display names per build key,
  with no duplicates. `setKey` switches the current key. `all()` returns every list,
  sorted in the engine's default string order.
- **the runtime message handler.** `chrome.runtime.onMessage` picks exactly one branch:
  set the pool key, add a component, answer a query, set the icon and popup for a React
  build, forward a fetch-file result to the tab's devtools port, or do nothing (no sender
  tab, or another payload type). It returns `true` on every path that does not throw
  (see `Background.Background.OnMessage` under "Left out").

Modules:

- `Wrappers` (`wrappers.dfy`): `Option`.
- `TabKey` (`tab_key.dfy`): the tab keys.
  - `isNumeric`, modelled as "is the canonical decimal form of an integer".
  - The conversion between tab ids and property-name keys, with its round trip and injectivity.
- `Messages` (`messages.dfy`): the fields of a runtime message that the handler reads.
- `Relay` (`relay.dfy`): `Port` as a class.
  - Its listener lists, outbox and connection flag are fields.
  - `doublePipe`, `shutdown`, and the delivery of a message and of a disconnect are methods.
  - Each method is proved against the list functions `Without`, `Count` and `Cut`.
- `StringOrder` (`string_order.dfy`): the default sort order of `Array.prototype.sort`, compared character by character. The model's characters are code points; the engine compares UTF-16 code units (see "Left out").
  - The order is proved total, antisymmetric and transitive.
  - An insertion sort specifies the result.
  - Any sorted permutation of a list is proved to equal that result.
- `ComponentPool` (`pool.dfy`): the pool as a pure state (`PoolState`) and as the class `ReactComponentPool`.
  - `PoolState` comes with `Added`, `WithKey` and `Snapshot`.
  - Each class method is proved against these functions.
- `Background` (`background.dfy`): the registry and the two listeners.
  - `Classify`, `Store` and `Route` are functions.
  - `OnConnect` and `OnMessage` are methods of `Background`.
  - `PairingExample` is an end-to-end pairing scenario.

Three behaviours of the code that the model keeps:

- `all()` sorts the stored lists in place, so the pool keeps the sorted lists afterwards.
- A fresh pool holds no `'default'` list. The list is created on the first `add`.
- The registry is never cleared. A later port for an already filed slot replaces the old one.
  If the other slot is filled, it is piped again.

## Model

| member | source | states |
|---|---|---|
| TabKey.IsNumeric | packages/react-devtools-extensions/src/background.js:35-37 | a numeric name is non-empty, has no superfluous leading zero (`"07"` reads back as `"7"`), and is never `"-0"` or a negative with a leading zero |
| TabKey.IntToString | packages/react-devtools-extensions/src/background.js:14-18 | the key of a tab id is non-empty and starts with `-` exactly when the id is negative |
| TabKey.ParseInt | packages/react-devtools-extensions/src/background.js:16 | `+port.name` is negative exactly when the name starts with `-` |
| TabKey.IntToStringRoundTrip | packages/react-devtools-extensions/src/background.js:13-18 | the key made from any tab id is numeric, and `+key` gives the id back |
| TabKey.ParseIntRoundTrip | packages/react-devtools-extensions/src/background.js:13-16 | a numeric port name is the key of the id that `+port.name` yields |
| TabKey.IsNumericIffKey | packages/react-devtools-extensions/src/background.js:35-37 | a string is numeric exactly when it is the key of some tab id |
| TabKey.IntToStringInjective | packages/react-devtools-extensions/src/background.js:14-18 | different tab ids never share a key |
| Background.Classify | packages/react-devtools-extensions/src/background.js:11-20 | a numeric name files the port as devtools under its own name; otherwise a sender tab files it as content script under that tab's key; otherwise the port is not filed; every key is numeric |
| Background.DevtoolsMeetsContentScript | packages/react-devtools-extensions/src/background.js:13-19 | the devtools port named after tab n and a content script in tab n meet under one key, and no other tab's content script uses it |
| Background.Store | packages/react-devtools-extensions/src/background.js:22-28 | filing adds the tab key, sets the slot, keeps the other slot (null for a new tab) and leaves every other tab alone |
| Background.Complete | packages/react-devtools-extensions/src/background.js:30 | a tab's entry is complete exactly when every slot holds a port |
| Background.StoreCompletes | packages/react-devtools-extensions/src/background.js:22-32 | the tab becomes complete exactly when the opposite slot was already filled |
| Background.Route | packages/react-devtools-extensions/src/background.js:168-223 | each branch of the handler is taken exactly under its condition, in priority order, with the arguments the code passes |
| Background.Background.constructor | packages/react-devtools-extensions/src/background.js:5 | the registry starts empty and the pool starts in its initial state |
| Background.Background.OnConnect | packages/react-devtools-extensions/src/background.js:9-33 | the registry becomes `Store` of the old one; devtools ports ask for injection into `+name`; both ends are piped exactly when the tab is complete, and otherwise nothing else changes |
| Background.Background.OnMessage | packages/react-devtools-extensions/src/background.js:161-224 | returns true; acts on the pool as `Route` says; only a query responds, with `Snapshot`; a fetch result reaches the tab's devtools port and only that port |
| Background.PairingExample | packages/react-devtools-extensions/src/background.js:9-55 | after devtools "42" and a content script in tab 42 connect, the messages either side sends reach the other unchanged, once each, in order |
| Background.ShutdownExample | packages/react-devtools-extensions/src/background.js:56-63 | after the paired content script disconnects, neither port holds a forwarder any more, the devtools port is disconnected, and the page's outbox is still empty |
| Relay.Port.constructor | packages/react-devtools-extensions/src/background.js:9 | a new port is connected and has no listeners and no messages |
| Relay.Port.PostMessage | packages/react-devtools-extensions/src/background.js:49-55 | a connected port queues the message at the end; a disconnected one drops it |
| Relay.Port.Disconnect | packages/react-devtools-extensions/src/background.js:59-60 | the port is disconnected |
| Relay.Port.AddMessageListener | packages/react-devtools-extensions/src/background.js:48-52 | the listener is appended |
| Relay.Port.RemoveMessageListener | packages/react-devtools-extensions/src/background.js:57-58 | the listener is removed and the others keep their order |
| Relay.Port.AddDisconnectListener | packages/react-devtools-extensions/src/background.js:62-63 | the listener is appended |
| Relay.Without | packages/react-devtools-extensions/src/background.js:57-58 | removing no listener leaves the list as it was |
| Relay.WithoutMembers | packages/react-devtools-extensions/src/background.js:57-58 | a listener survives removal exactly when it was there and is not removed |
| Relay.WithoutWithout | packages/react-devtools-extensions/src/background.js:57-58 | removing one set and then another is removing their union |
| Relay.Count | packages/react-devtools-extensions/src/background.js:48-55 | the number of forwarders to a port is zero exactly when none targets it |
| Relay.CountAppend | packages/react-devtools-extensions/src/background.js:47-52 | each doublePipe adds exactly one copy per message for its peer and none for other ports |
| Relay.Cut | packages/react-devtools-extensions/src/background.js:56-58 | a shutdown removes from a port exactly the forwarder it installed there |
| Relay.DoublePipe | packages/react-devtools-extensions/src/background.js:47-64 | each port gets one forwarder to the other, then one shutdown listener each |
| Relay.Shutdown | packages/react-devtools-extensions/src/background.js:56-61 | both forwarders of the pipe are removed and both ports are disconnected |
| Relay.ShutdownStopsPipe | packages/react-devtools-extensions/src/background.js:56-58 | after shutdown neither port still holds the forwarder of that pipe |
| Relay.Receive | packages/react-devtools-extensions/src/background.js:48-55 | each connected peer receives the message once per forwarder to it; disconnected peers receive nothing; listeners and states are unchanged |
| Relay.RemoteDisconnect | packages/react-devtools-extensions/src/background.js:56-63 | every port piped to the closing port loses the forwarders of those pipes and is disconnected; the outboxes and disconnect listeners of those ports are unchanged, and nothing else changes |
| Relay.RunShutdowns | packages/react-devtools-extensions/src/background.js:56-63 | running the shutdown listeners in order removes from each affected port exactly the forwarders of those pipes and disconnects every affected port |
| Relay.RunShutdown | packages/react-devtools-extensions/src/background.js:56-61 | one more `shutdown` run extends the removed forwarders by that pipe's two and disconnects its two ports |
| StringOrder.Below | packages/react-devtools-extensions/src/background.js:151 | a string sorts no later than any string it is a prefix of |
| StringOrder.BelowTotal | packages/react-devtools-extensions/src/background.js:151 | any two names are ordered one way or the other |
| StringOrder.BelowAntisymmetric | packages/react-devtools-extensions/src/background.js:151 | names ordered both ways are equal |
| StringOrder.BelowTransitive | packages/react-devtools-extensions/src/background.js:151 | the order is transitive |
| StringOrder.Sort | packages/react-devtools-extensions/src/background.js:151 | the result is sorted and a permutation of the input |
| StringOrder.SortUnique | packages/react-devtools-extensions/src/background.js:151 | two sorted permutations of the same names are equal, so the result does not depend on the engine's algorithm |
| StringOrder.SortSorted | packages/react-devtools-extensions/src/background.js:151 | sorting a sorted list leaves it unchanged |
| StringOrder.SortPermutation | packages/react-devtools-extensions/src/background.js:151 | lists with the same names sort to the same result |
| ComponentPool.Added | packages/react-devtools-extensions/src/background.js:135-141 | only the current key's list changes; it gains the component once, at the end, unless already present |
| ComponentPool.WithKey | packages/react-devtools-extensions/src/background.js:143-145 | the key changes and the lists do not |
| ComponentPool.Snapshot | packages/react-devtools-extensions/src/background.js:147-154 | one list per stored key, each sorted and a permutation of the stored list |
| ComponentPool.AddedDeduplicated | packages/react-devtools-extensions/src/background.js:137-139 | adding keeps every list free of duplicates |
| ComponentPool.AddedIdempotent | packages/react-devtools-extensions/src/background.js:137 | adding the same component twice is adding it once |
| ComponentPool.SwitchKeepsGroup | packages/react-devtools-extensions/src/background.js:143-145 | after a key switch, adds go to the new key and the old key's list keeps what it had |
| ComponentPool.NoDuplicatesMultiset | packages/react-devtools-extensions/src/background.js:137 | a list has no duplicates exactly when each name occurs at most once |
| ComponentPool.SnapshotDeduplicated | packages/react-devtools-extensions/src/background.js:147-154 | sorting keeps the lists duplicate-free |
| ComponentPool.SnapshotIdempotent | packages/react-devtools-extensions/src/background.js:147-154 | a second all() returns the same map as the first |
| ComponentPool.SnapshotOrderFree | packages/react-devtools-extensions/src/background.js:147-154 | all() depends only on which names each key holds, not on their insertion order |
| ComponentPool.Build123Example | packages/react-devtools-extensions/src/background.js:135-154 | after setKey("build-123"), add Button, Button, Modal, all() is {"build-123": ["Button", "Modal"]} |
| ComponentPool.ReactComponentPool.constructor | packages/react-devtools-extensions/src/background.js:121-125 | no lists, and key 'default' |
| ComponentPool.ReactComponentPool.Impl | packages/react-devtools-extensions/src/background.js:127-133 | returns the current key's list, first creating it empty if it is missing |
| ComponentPool.ReactComponentPool.Add | packages/react-devtools-extensions/src/background.js:135-141 | the state becomes `Added` of the old state, and stays duplicate-free |
| ComponentPool.ReactComponentPool.SetKey | packages/react-devtools-extensions/src/background.js:143-145 | the state becomes `WithKey` of the old state |
| ComponentPool.ReactComponentPool.All | packages/react-devtools-extensions/src/background.js:147-154 | returns `Snapshot` of the stored lists and stores the sorted lists in their place |

## Left out

- Injecting the content script (`installContentScript`, lines 39-45) is an effect outside the page. It is not modelled. `OnConnect` returns the tab id it would be called with.
- Setting the icon and popup (`setIconAndPopup`, lines 66-80) is an effect outside the page. It is not modelled. `Route` and `OnMessage` return it as an action with its build type and tab id.
- The `chrome.tabs` listeners and the restricted-page check (lines 82-118) are not part of this model. They depend on the browser, the URL parser and the user agent.
- The `window.setReactComponentPoolKey` and `window.getReactComponents` globals (lines 158-159) are not part of this model. They only call `setKey` and `all` on the one pool.
- Logging (`console.log`) is not modelled.
- TabKey.IsNumeric: the model and `+str + '' === str` differ in both directions. JavaScript also accepts `"NaN"`, `"Infinity"`, decimals and exponent forms, which the model rejects. The model also accepts canonical integers that JavaScript rejects because they do not survive a trip through a double, such as `"9007199254740993"` or `"100000000000000000000000"` (which prints as `"1e+23"`). Browser port names and tab ids are small integers, where the two agree.
- StringOrder.Below: the engine compares UTF-16 code units. The model compares Dafny characters (code points). The two orders differ only between supplementary characters (above U+FFFF) and characters in U+E000–U+FFFF: the engine sorts U+10000 before U+E000, the model after. Lone surrogates, which JavaScript strings may hold, cannot be represented at all.
- Relay.Port.PostMessage: Chrome throws on a disconnected port. The model drops the message and does not model the exception. Because the registry is never cleared, it can still hold a disconnected devtools port. On the forward-to-devtools path of the message handler (lines 212-214), the source then throws before returning `true`.
- Relay.Port.Disconnect: a port's own `disconnect()` does not fire its own `onDisconnect`, and the model does not run it. Another port's `onDisconnect` firing is `Relay.RemoteDisconnect`.
- Relay.Without: listener identity is modelled by value, as a `ForwardTo(pipe, peer)` tagged with the number of its doublePipe call. JavaScript compares closures by reference, and the pipe number makes both notions agree.
- ComponentPool.Added: the source's `_map` is a plain object, so it inherits `Object.prototype`. For a key that names one of its properties (`"constructor"`, `"__proto__"`, `"toString"`, `"valueOf"`, `"hasOwnProperty"`, ...), `impl` returns the inherited value instead of creating a list. `add` then throws at `impl.includes`, and `all()` never lists that key. The model treats such keys like any other key and creates the list.
- ComponentPool.ReactComponentPool.Impl: for a key that names an `Object.prototype` property, the source's getter returns the inherited value (line 129 sees it as defined). The model creates an empty list under that key instead.
- ComponentPool.ReactComponentPool.Add: for a key that names an `Object.prototype` property, the source throws at `impl.includes` (line 137) and leaves the pool unchanged. The model adds the name to a new list under that key.
- Background.Background.OnMessage: when the registry still holds a disconnected devtools port for the sender's tab, `devtools.postMessage` (line 214) throws before `return true` (line 218). The model drops the message and still promises `keepOpen`.
- Messages: `request.key` and `request.element.displayName` are strings. An undefined key and a missing `element` are not modelled; the latter throws.
- Background.Classify: the `TypeError` thrown for a non-numeric port with no sender tab is modelled as "not filed", with no other effect.
- Scheduling, concurrency and the asynchronous delivery of browser events are not modelled. Each listener call runs to completion, one at a time.
- The shared modules under `packages/react-devtools-shared` are not part of this model.
