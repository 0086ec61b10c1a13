/**
 * The upstream subscription tracker of src/kick/KickServer.ts as a class.
 *
 * Timers and event-emitter callbacks become explicit events, dispatched one at
 * a time: `Timeout(id)` is the 5-second timer of a subscribe firing, and
 * `OnMessage(frame)` is the websocket message handler, which hands a
 * confirmation to every registered `channel_connect` listener (`Confirm`).
 */
module KickServer {
  import opened Wrappers
  import opened KickChannel

  datatype ChannelStatus = Connecting | Connected

  class KickServer {
    /** Whether `socket` is non-null; `socket?.send` sends nothing while it is null. */
    var hasSocket: bool
    /** `channels`: room id to subscription status. */
    var channels: map<int, ChannelStatus>
    /** One entry per `channel_connect` listener registered by a subscribe; never removed. */
    var waiters: multiset<int>
    /** One entry per subscribe timer that is armed (neither fired nor cleared). */
    var timers: multiset<int>
    /** Every command written to the upstream socket, oldest first. */
    var sent: seq<Command>

    /**
     * A tracked room had a listener registered for it, and a room is
     * CONNECTING exactly while the timer of its subscribe is armed; at most
     * one timer per room is armed.
     */
    ghost predicate Valid()
      reads this
    {
      (forall id :: id in channels ==> id in waiters)
      && (forall id :: timers[id] <= 1)
      && (forall id :: id in timers <==> id in channels && channels[id] == Connecting)
    }

    constructor ()
      ensures Valid()
      ensures !hasSocket && channels == map[] && waiters == multiset{}
      ensures timers == multiset{} && sent == []
    {
      hasSocket := false;
      channels := map[];
      waiters := multiset{};
      timers := multiset{};
      sent := [];
    }

    /** `connectSocket`: the socket is created; its open/error/close forwarding is not modelled. */
    method ConnectSocket()
      requires Valid()
      modifies this`hasSocket
      ensures Valid() && hasSocket
    {
      hasSocket := true;
    }

    /** `disconnectSocket`: the socket is closed and dropped; tracked rooms stay as they are. */
    method DisconnectSocket()
      requires Valid()
      modifies this`hasSocket
      ensures Valid() && !hasSocket
    {
      hasSocket := false;
    }

    /**
     * `subscribeToChannel`: a tracked room is left alone; an untracked one gets
     * one subscribe command (if there is a socket), is recorded CONNECTING,
     * arms a timer and registers a confirmation listener.
     */
    method Subscribe(id: int)
      requires Valid()
      modifies this
      ensures Valid() && hasSocket == old(hasSocket)
      ensures old(id in channels) ==>
        channels == old(channels) && sent == old(sent)
        && waiters == old(waiters) && timers == old(timers)
      ensures old(id !in channels) ==>
        channels == old(channels)[id := Connecting]
        && sent == old(sent) + (if hasSocket then [SubscribeCommand(id)] else [])
        && waiters == old(waiters) + multiset{id}
        && timers == old(timers) + multiset{id}
    {
      if id in channels {
        return;
      }
      if hasSocket {
        sent := sent + [SubscribeCommand(id)];
      }
      channels := channels[id := Connecting];
      timers := timers + multiset{id};
      waiters := waiters + multiset{id};
    }

    /**
     * The subscribe timer for `id` fires: the entry is deleted. When no timer
     * for `id` is armed, no timer callback can run, and nothing changes.
     */
    method Timeout(id: int)
      requires Valid()
      modifies this
      ensures Valid()
      ensures hasSocket == old(hasSocket) && sent == old(sent) && waiters == old(waiters)
      ensures old(id in timers) ==>
        channels == old(channels) - {id} && timers == old(timers)[id := 0]
      ensures old(id !in timers) ==> channels == old(channels) && timers == old(timers)
    {
      if id in timers {
        channels := channels - {id};
        timers := timers[id := 0];
      }
    }

    /**
     * A `channel_connect` event for `id` reaches every listener. Each listener
     * registered for `id` clears its own timer and sets the entry CONNECTED;
     * it does not look at the entry first, so a confirmation after the
     * timeout brings the entry back. Without such a listener nothing changes.
     */
    method Confirm(id: int)
      requires Valid()
      modifies this
      ensures Valid()
      ensures hasSocket == old(hasSocket) && sent == old(sent) && waiters == old(waiters)
      ensures old(id in waiters) ==>
        channels == old(channels)[id := Connected] && timers == old(timers)[id := 0]
      ensures old(id !in waiters) ==> channels == old(channels) && timers == old(timers)
    {
      if id in waiters {
        channels := channels[id := Connected];
        timers := timers[id := 0];
      }
    }

    /**
     * `socket.onmessage`: a frame that decodes to a subscription confirmation
     * is passed to the listeners; every other frame changes nothing.
     */
    method OnMessage(frame: Frame) returns (outcome: FrameOutcome)
      requires Valid()
      modifies this
      ensures Valid()
      ensures outcome == DecodeFrame(frame)
      ensures hasSocket == old(hasSocket) && sent == old(sent) && waiters == old(waiters)
      ensures outcome.Confirmed? && old(outcome.id in waiters) ==>
        channels == old(channels)[outcome.id := Connected]
        && timers == old(timers)[outcome.id := 0]
      ensures !(outcome.Confirmed? && old(outcome.id in waiters)) ==>
        channels == old(channels) && timers == old(timers)
    {
      outcome := DecodeFrame(frame);
      if outcome.Confirmed? {
        Confirm(outcome.id);
      }
    }

    /**
     * `connectToChannel`, given what the channel lookup answered for `id`: a
     * missing or zero id fails before any subscribe; any other id is subscribed.
     */
    method ConnectToChannel(id: Option<int>) returns (r: Result<int, string>)
      requires Valid()
      modifies this
      ensures Valid() && hasSocket == old(hasSocket)
      ensures r == CheckId(id)
      ensures r.Err? ==>
        channels == old(channels) && sent == old(sent)
        && waiters == old(waiters) && timers == old(timers)
      ensures r.Ok? && old(r.value in channels) ==>
        channels == old(channels) && sent == old(sent)
        && waiters == old(waiters) && timers == old(timers)
      ensures r.Ok? && old(r.value !in channels) ==>
        channels == old(channels)[r.value := Connecting]
        && sent == old(sent) + (if hasSocket then [SubscribeCommand(r.value)] else [])
        && waiters == old(waiters) + multiset{r.value}
        && timers == old(timers) + multiset{r.value}
    {
      r := CheckId(id);
      if r.Ok? {
        Subscribe(r.value);
      }
    }
  }

  /** Two subscribes for one room with no event between them send at most one command. */
  method SubscribeTwice(k: KickServer, id: int)
    requires k.Valid()
    modifies k
    ensures k.Valid()
    ensures |k.sent| <= |old(k.sent)| + 1
    ensures old(id !in k.channels) && k.hasSocket ==> k.sent == old(k.sent) + [SubscribeCommand(id)]
    ensures k.channels == old(k.channels)[id := if id in old(k.channels) then old(k.channels)[id] else Connecting]
  {
    k.Subscribe(id);
    k.Subscribe(id);
  }

  /**
   * A confirmation that arrives after the timeout still sets the room
   * CONNECTED, because the listener is never removed.
   */
  method LateConfirmation(id: nat) returns (k: KickServer)
    ensures fresh(k) && k.Valid()
    ensures k.channels == map[id := Connected]
  {
    k := new KickServer();
    k.ConnectSocket();
    k.Subscribe(id);
    k.Timeout(id);
    assert k.channels == map[];
    var frame := JsonValue(Text(SubscriptionSucceeded), Text(FormatChannel(id)));
    FormatParseRoundTrip(id);
    var outcome := k.OnMessage(frame);
  }
}
