/**
 * Extension ports and the relay that `doublePipe` builds between the devtools
 * page's port and the content script's port of one tab.
 *
 * A `Port` keeps what the background page can observe of a `chrome.runtime.Port`:
 * the listeners registered on its `onMessage` and `onDisconnect` events, the
 * messages posted on it (`outbox`) and whether it is still connected. JavaScript
 * closures become listener values: the `lOne`/`lTwo` closures of one `doublePipe`
 * call are `ForwardTo` values and its `shutdown` closure a `ShutdownOf` value, each
 * tagged with a number that tells apart the closures of different calls.
 */
module Relay {
  import opened Wrappers
  import opened Messages

  /** `message => peer.postMessage(message)`, created by doublePipe call number `pipe`. */
  datatype MessageListener = ForwardTo(pipe: nat, peer: Port)

  /** The `shutdown` closure of doublePipe call number `pipe` over the ports `one` and `two`. */
  datatype DisconnectListener = ShutdownOf(pipe: nat, one: Port, two: Port)

  class Port {
    const name: string               // port.name
    const senderTab: Option<int>     // port.sender.tab.id, None when the sender has no tab
    var onMessage: seq<MessageListener>
    var onDisconnect: seq<DisconnectListener>
    var outbox: seq<Message>         // messages posted on this port, oldest first
    var connected: bool

    constructor (name: string, senderTab: Option<int>)
      ensures this.name == name && this.senderTab == senderTab
      ensures onMessage == [] && onDisconnect == [] && outbox == [] && connected
    {
      this.name := name;
      this.senderTab := senderTab;
      onMessage, onDisconnect, outbox, connected := [], [], [], true;
    }

    /** `port.postMessage(m)`: a port that is already disconnected drops the message. */
    method PostMessage(m: Message)
      modifies this`outbox
      ensures outbox == old(outbox) + (if connected then [m] else [])
    {
      if connected {
        outbox := outbox + [m];
      }
    }

    /** `port.disconnect()`; disconnecting twice is harmless. */
    method Disconnect()
      modifies this`connected
      ensures !connected
    {
      connected := false;
    }

    method AddMessageListener(l: MessageListener)
      modifies this`onMessage
      ensures onMessage == old(onMessage) + [l]
    {
      onMessage := onMessage + [l];
    }

    method RemoveMessageListener(l: MessageListener)
      modifies this`onMessage
      ensures onMessage == Without(old(onMessage), {l})
    {
      onMessage := Without(onMessage, {l});
    }

    method AddDisconnectListener(l: DisconnectListener)
      modifies this`onDisconnect
      ensures onDisconnect == old(onDisconnect) + [l]
    {
      onDisconnect := onDisconnect + [l];
    }
  }

  /** `ls` with every listener in `gone` taken out, the others kept in order. */
  function Without(ls: seq<MessageListener>, gone: set<MessageListener>): (r: seq<MessageListener>)
    ensures gone == {} ==> r == ls
  {
    if ls == [] then []
    else (if ls[0] in gone then [] else [ls[0]]) + Without(ls[1..], gone)
  }

  /**
   * removeListener takes out exactly the listeners in `gone`: none of them is left,
   * every other one stays, and none is added.
   */
  lemma {:induction false} WithoutMembers(ls: seq<MessageListener>, gone: set<MessageListener>, l: MessageListener)
    ensures l in Without(ls, gone) <==> l in ls && l !in gone
    decreases |ls|
  {
    if ls != [] {
      WithoutMembers(ls[1..], gone, l);
      assert ls == [ls[0]] + ls[1..];
    }
  }

  /** Removing two sets of listeners one after the other removes their union. */
  lemma {:induction false} WithoutWithout(ls: seq<MessageListener>, a: set<MessageListener>, b: set<MessageListener>)
    ensures Without(Without(ls, a), b) == Without(ls, a + b)
    decreases |ls|
  {
    if ls != [] {
      WithoutWithout(ls[1..], a, b);
      if ls[0] in a {
        assert Without(ls, a) == Without(ls[1..], a);
      } else {
        assert Without(ls, a) == [ls[0]] + Without(ls[1..], a);
        assert Without(ls, a)[1..] == Without(ls[1..], a);
      }
    }
  }

  /** How many of the listeners `ls` forward to `q`: the copies of one message `q` is sent. */
  function Count(ls: seq<MessageListener>, q: Port): (n: nat)
    ensures n <= |ls|
    ensures n == 0 <==> forall i :: 0 <= i < |ls| ==> ls[i].peer != q
  {
    if ls == [] then 0
    else Count(ls[..|ls| - 1], q) + (if ls[|ls| - 1].peer == q then 1 else 0)
  }

  lemma CountStep(ls: seq<MessageListener>, i: nat, q: Port)
    requires i < |ls|
    ensures Count(ls[..i + 1], q) == Count(ls[..i], q) + (if ls[i].peer == q then 1 else 0)
  {
    assert ls[..i + 1][..i] == ls[..i];
  }

  /**
   * Each listener appended to a port adds one copy per message for its peer and none
   * for any other port: a second doublePipe between the same two ports doubles delivery.
   */
  lemma {:induction false} CountAppend(ls: seq<MessageListener>, l: MessageListener, q: Port)
    ensures Count(ls + [l], q) == Count(ls, q) + (if l.peer == q then 1 else 0)
  {
    assert (ls + [l])[..|ls|] == ls;
  }

  /** `n` copies of `m`. */
  function Copies(m: Message, n: nat): (r: seq<Message>)
    ensures |r| == n && forall i :: 0 <= i < n ==> r[i] == m
  {
    if n == 0 then [] else Copies(m, n - 1) + [m]
  }

  /** The ports that the listeners `ls` forward to. */
  function Peers(ls: seq<MessageListener>): set<Port>
  {
    set l | l in ls :: l.peer
  }

  /** The ports that the shutdown listeners `ds` disconnect. */
  function Ends(ds: seq<DisconnectListener>): set<Port>
  {
    (set d | d in ds :: d.one) + (set d | d in ds :: d.two)
  }

  lemma EndsStep(ds: seq<DisconnectListener>, i: nat)
    requires i < |ds|
    ensures Ends(ds[..i + 1]) == Ends(ds[..i]) + {ds[i].one, ds[i].two}
  {
    assert ds[..i + 1] == ds[..i] + [ds[i]];
  }

  /** The forwarding listeners that `shutdown` of `d` removes from port `q`. */
  function Cut(q: Port, d: DisconnectListener): (r: set<MessageListener>)
    ensures ForwardTo(d.pipe, d.two) in r <==> d.one == q
    ensures ForwardTo(d.pipe, d.one) in r <==> d.two == q
  {
    (if d.one == q then {ForwardTo(d.pipe, d.two)} else {})
    + (if d.two == q then {ForwardTo(d.pipe, d.one)} else {})
  }

  /** The forwarding listeners that running the shutdowns `ds` removes from port `q`. */
  function CutAll(q: Port, ds: seq<DisconnectListener>): set<MessageListener>
  {
    if ds == [] then {} else CutAll(q, ds[..|ds| - 1]) + Cut(q, ds[|ds| - 1])
  }

  lemma CutAllStep(q: Port, ds: seq<DisconnectListener>, i: nat)
    requires i < |ds|
    ensures CutAll(q, ds[..i + 1]) == CutAll(q, ds[..i]) + Cut(q, ds[i])
  {
    assert ds[..i + 1][..i] == ds[..i];
  }

  /**
   * doublePipe(one, two): each port forwards what it receives to the other, and a
   * disconnect of either runs `shutdown`. The devtools and content-script ports of a
   * tab are always two different ports.
   */
  method DoublePipe(one: Port, two: Port, pipe: nat)
    requires one != two
    modifies one`onMessage, one`onDisconnect, two`onMessage, two`onDisconnect
    ensures one.onMessage == old(one.onMessage) + [ForwardTo(pipe, two)]
    ensures two.onMessage == old(two.onMessage) + [ForwardTo(pipe, one)]
    ensures one.onDisconnect == old(one.onDisconnect) + [ShutdownOf(pipe, one, two)]
    ensures two.onDisconnect == old(two.onDisconnect) + [ShutdownOf(pipe, one, two)]
  {
    one.AddMessageListener(ForwardTo(pipe, two));
    two.AddMessageListener(ForwardTo(pipe, one));
    one.AddDisconnectListener(ShutdownOf(pipe, one, two));
    two.AddDisconnectListener(ShutdownOf(pipe, one, two));
  }

  /** `shutdown` of doublePipe call `d`: remove both forwarding listeners, disconnect both ports. */
  method Shutdown(d: DisconnectListener)
    modifies d.one`onMessage, d.one`connected, d.two`onMessage, d.two`connected
    ensures d.one.onMessage == Without(old(d.one.onMessage), Cut(d.one, d))
    ensures d.two.onMessage == Without(old(d.two.onMessage), Cut(d.two, d))
    ensures !d.one.connected && !d.two.connected
  {
    var one, two := d.one, d.two;
    ghost var before := one.onMessage;
    one.RemoveMessageListener(ForwardTo(d.pipe, two));
    two.RemoveMessageListener(ForwardTo(d.pipe, one));
    if one == two {
      WithoutWithout(before, {ForwardTo(d.pipe, two)}, {ForwardTo(d.pipe, one)});
      assert Cut(one, d) == {ForwardTo(d.pipe, two)} + {ForwardTo(d.pipe, one)};
    } else {
      assert Cut(one, d) == {ForwardTo(d.pipe, two)};
      assert Cut(two, d) == {ForwardTo(d.pipe, one)};
    }
    one.Disconnect();
    two.Disconnect();
  }

  /** After `shutdown` of `d`, neither port holds the forwarder that `d` installed on it. */
  lemma ShutdownStopsPipe(d: DisconnectListener, one: seq<MessageListener>, two: seq<MessageListener>)
    ensures ForwardTo(d.pipe, d.two) !in Without(one, Cut(d.one, d))
    ensures ForwardTo(d.pipe, d.one) !in Without(two, Cut(d.two, d))
  {
    WithoutMembers(one, Cut(d.one, d), ForwardTo(d.pipe, d.two));
    WithoutMembers(two, Cut(d.two, d), ForwardTo(d.pipe, d.one));
  }

  /**
   * The browser delivers message `m` on port `p`: every forwarding listener of `p`
   * posts `m` unchanged to its peer, so each peer's outbox gains `m` once per
   * listener that forwards to it, after everything posted there before.
   */
  method Receive(p: Port, m: Message)
    modifies Peers(p.onMessage)
    ensures p.onMessage == old(p.onMessage)
    ensures forall q :: q in old(Peers(p.onMessage)) && q.connected ==>
      q.outbox == old(q.outbox) + Copies(m, Count(old(p.onMessage), q))
    ensures forall q :: q in old(Peers(p.onMessage)) && !q.connected ==> q.outbox == old(q.outbox)
    ensures forall q :: q in old(Peers(p.onMessage)) ==>
      && q.connected == old(q.connected)
      && q.onMessage == old(q.onMessage)
      && q.onDisconnect == old(q.onDisconnect)
  {
    var ls := p.onMessage;
    var i := 0;
    while i < |ls|
      invariant 0 <= i <= |ls|
      invariant p.onMessage == ls
      invariant forall q :: q in Peers(ls) && q.connected ==> q.outbox == old(q.outbox) + Copies(m, Count(ls[..i], q))
      invariant forall q :: q in Peers(ls) && !q.connected ==> q.outbox == old(q.outbox)
      invariant forall q :: q in Peers(ls) ==> q.connected == old(q.connected)
      invariant forall q :: q in Peers(ls) ==> q.onMessage == old(q.onMessage)
      invariant forall q :: q in Peers(ls) ==> q.onDisconnect == old(q.onDisconnect)
    {
      assert ls[i] in ls;
      ls[i].peer.PostMessage(m);
      forall q | q in Peers(ls) && q.connected
        ensures q.outbox == old(q.outbox) + Copies(m, Count(ls[..i + 1], q))
      {
        CountStep(ls, i, q);
      }
      i := i + 1;
    }
    assert ls[..i] == ls;
  }

  /**
   * The other end of port `p` goes away: `p` is disconnected and every `shutdown`
   * registered on `p.onDisconnect` runs, in registration order.
   */
  method RemoteDisconnect(p: Port)
    modifies p`connected, Ends(p.onDisconnect)`onMessage, Ends(p.onDisconnect)`connected
    ensures !p.connected
    ensures forall q :: q in Ends(old(p.onDisconnect)) ==> !q.connected
    ensures forall q :: q in Ends(old(p.onDisconnect)) ==>
      q.outbox == old(q.outbox) && q.onDisconnect == old(q.onDisconnect)
    ensures forall q :: q in Ends(old(p.onDisconnect)) ==>
      q.onMessage == Without(old(q.onMessage), CutAll(q, old(p.onDisconnect)))
  {
    p.connected := false;
    RunShutdowns(p.onDisconnect);
  }

  /** The shutdown listeners `ds` run one after the other, in registration order. */
  method RunShutdowns(ds: seq<DisconnectListener>)
    modifies Ends(ds)`onMessage, Ends(ds)`connected
    ensures forall q :: q in Ends(ds) ==> !q.connected
    ensures forall q :: q in Ends(ds) ==> q.onMessage == Without(old(q.onMessage), CutAll(q, ds))
  {
    ghost var start := map q | q in Ends(ds) :: q.onMessage;
    var i := 0;
    while i < |ds|
      invariant 0 <= i <= |ds|
      invariant forall q :: q in Ends(ds) ==> q.onMessage == Without(start[q], CutAll(q, ds[..i]))
      invariant forall q :: q in Ends(ds[..i]) ==> !q.connected
    {
      assert ds[i] in ds;
      RunShutdown(ds, i, start);
      i := i + 1;
    }
    assert ds[..i] == ds;
  }

  /**
   * Turn `i` of RemoteDisconnect's dispatch loop: the shutdowns before `ds[i]` have
   * removed their listeners from the ports of `Ends(ds)`, which held `start` when the
   * disconnect arrived; `ds[i]` removes its own.
   */
  method RunShutdown(ds: seq<DisconnectListener>, i: nat, ghost start: map<Port, seq<MessageListener>>)
    requires i < |ds|
    requires forall q :: q in Ends(ds) ==> q in start && q.onMessage == Without(start[q], CutAll(q, ds[..i]))
    requires forall q :: q in Ends(ds[..i]) ==> !q.connected
    modifies ds[i].one`onMessage, ds[i].one`connected, ds[i].two`onMessage, ds[i].two`connected
    ensures forall q :: q in Ends(ds) ==> q.onMessage == Without(start[q], CutAll(q, ds[..i + 1]))
    ensures forall q :: q in Ends(ds[..i + 1]) ==> !q.connected
  {
    var d := ds[i];
    Shutdown(d);
    EndsStep(ds, i);
    forall q | q in Ends(ds[..i + 1]) ensures !q.connected {
      if q != d.one && q != d.two {
        assert q in Ends(ds[..i]);
        assert !old(q.connected);
      }
    }
    forall q | q in Ends(ds)
      ensures q.onMessage == Without(start[q], CutAll(q, ds[..i + 1]))
    {
      var was := old(q.onMessage);
      WithoutWithout(start[q], CutAll(q, ds[..i]), Cut(q, d));
      CutAllStep(q, ds, i);
      if q == d.one {
        assert q.onMessage == Without(was, Cut(q, d));
      } else if q == d.two {
        assert q.onMessage == Without(was, Cut(q, d));
      } else {
        assert Cut(q, d) == {};
        assert q.onMessage == was;
      }
    }
  }
}
