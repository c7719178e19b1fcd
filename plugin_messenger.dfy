/** The plugin-message messenger: LuckPerms update notifications carried between servers
    inside player-borne plugin messages on one fixed channel. */
module PluginMessaging {
  import opened Host

  /** The channel identifier shared with the proxy side. */
  const CHANNEL: string := "luckperms:update"

  /** Ticks between two attempts to find a player to carry an outgoing message. */
  const RetryDelayTicks: nat := 100

  /** One `sendPluginMessage` call: the player that carries it, the channel, the payload and
      the tick, counted from submission, at which it is sent. */
  datatype PluginMessage = PluginMessage(via: Player, channel: string, payload: Bytes, tick: nat)

  /** The first attempt, in a sequence of observations of the online players (one per
      attempt), that finds a player online. */
  function FirstAttemptWithPlayer(online: seq<seq<Player>>): (k: Option<nat>)
    ensures k.None? <==> forall j | 0 <= j < |online| :: online[j] == []
    ensures k.Some? ==>
      && k.value < |online| && online[k.value] != []
      && forall j | 0 <= j < k.value :: online[j] == []
  {
    if online == [] then None
    else if online[0] != [] then Some(0)
    else
      match FirstAttemptWithPlayer(online[1..])
      case None => None
      case Some(k) => Some(k + 1)
  }

  class PluginMessageMessenger {
    const eventNode: EventNode
    const listener: EventListener
    /** The payloads handed to `handleIncomingMessage`, in arrival order. */
    var handled: seq<Bytes>

    constructor (eventNode: EventNode)
      ensures this.eventNode == eventNode && fresh(listener)
      ensures listener.eventType == PlayerPluginMessageEvent
      ensures handled == []
    {
      this.eventNode := eventNode;
      listener := new EventListener(PlayerPluginMessageEvent);
      handled := [];
    }

    /** Registers this messenger's incoming listener on the event node. */
    method Init()
      modifies eventNode
      ensures eventNode.listeners == old(eventNode.listeners) + [listener]
    {
      eventNode.AddListener(listener);
    }

    /** Removes the same listener; nothing else is touched (no send task is tracked). */
    method Close()
      modifies eventNode
      ensures eventNode.listeners == RemoveFirst(old(eventNode.listeners), listener)
    {
      eventNode.RemoveListener(listener);
    }

    /** An inbound plugin message: passed on unchanged if it is on CHANNEL, ignored otherwise. */
    method ReceiveIncomingMessage(identifier: string, message: Bytes)
      modifies this
      ensures identifier != CHANNEL ==> handled == old(handled)
      ensures identifier == CHANNEL ==> handled == old(handled) + [message]
    {
      if identifier != CHANNEL {
        return;
      }
      handled := handled + [message];
    }

    /** The scheduled send task, run once per attempt; `online[k]` is the host's list of
        online players when attempt k runs, RetryDelayTicks * k ticks after submission.
        Each attempt either sends through the first online player and stops, or asks to run
        again RetryDelayTicks later. `pending` tells whether the task is still scheduled once
        the observed attempts are over. */
    method SendOutgoingMessage(buf: Bytes, online: seq<seq<Player>>) returns (sent: seq<PluginMessage>, pending: bool)
      ensures pending <==> FirstAttemptWithPlayer(online).None?
      ensures pending ==> sent == []
      ensures !pending ==>
        var k := FirstAttemptWithPlayer(online).value;
        sent == [PluginMessage(online[k][0], CHANNEL, buf, RetryDelayTicks * k)]
    {
      sent, pending := [], true;
      var attempt := 0;
      while attempt < |online| && pending
        invariant 0 <= attempt <= |online|
        invariant pending ==> sent == [] && forall j | 0 <= j < attempt :: online[j] == []
        invariant !pending ==>
          && 0 < attempt && online[attempt - 1] != []
          && (forall j | 0 <= j < attempt - 1 :: online[j] == [])
          && sent == [PluginMessage(online[attempt - 1][0], CHANNEL, buf, RetryDelayTicks * (attempt - 1))]
      {
        var players := online[attempt];
        if players != [] {
          sent := sent + [PluginMessage(players[0], CHANNEL, buf, RetryDelayTicks * attempt)];
          pending := false;
        }
        attempt := attempt + 1;
      }
    }
  }

  /** A messenger that is initialised and then closed leaves the event node's listeners as
      they were. */
  method InitThenClose(eventNode: EventNode) returns (messenger: PluginMessageMessenger)
    modifies eventNode
    ensures fresh(messenger) && messenger.eventNode == eventNode
    ensures eventNode.listeners == old(eventNode.listeners)
  {
    messenger := new PluginMessageMessenger(eventNode);
    messenger.Init();
    messenger.Close();
    RemoveFirstAfterAppend(old(eventNode.listeners), messenger.listener);
  }

  /** Closing twice is the same as closing once: the second removal finds nothing. */
  lemma CloseIsIdempotent(listeners: seq<EventListener>, listener: EventListener)
    requires listener !in listeners
    ensures RemoveFirst(RemoveFirst(listeners + [listener], listener), listener) == listeners
  {
    RemoveFirstAfterAppend(listeners, listener);
  }

  /** Unbounded retries: if the first player shows up at attempt k, after any number of empty
      attempts, exactly one message is sent, at attempt k, with the original bytes. */
  lemma DeliveredAtFirstPlayer(empty: nat, rest: seq<seq<Player>>)
    requires rest != [] && rest[0] != []
    ensures var online := seq(empty, _ => []) + rest;
      FirstAttemptWithPlayer(online) == Some(empty)
  {
    var online := seq(empty, _ => []) + rest;
    assert online[empty] == rest[0];
  }
}
