/** Values and objects that the host server and the shared LuckPerms code hand to the
    Minestom integration layer. Only their identity and the data this layer reads are kept. */
module Host {

  datatype Option<+T> = None | Some(value: T)

  /** java.util.UUID: a 128-bit identifier stored as two 64-bit halves. */
  datatype Uuid = Uuid(mostSigBits: bv64, leastSigBits: bv64)

  type Bytes = seq<bv8>

  /** A player as the host's connection manager lists it. */
  datatype Player = Player(uuid: Uuid, username: string, online: bool)

  /** The host event types the integration layer subscribes to. */
  datatype EventType =
    | AsyncPlayerPreLoginEvent
    | AsyncPlayerConfigurationEvent
    | PlayerDisconnectEvent
    | PlayerPluginMessageEvent

  /** A registered listener; its identity is what `removeListener` looks for. */
  class EventListener {
    const eventType: EventType

    constructor (eventType: EventType)
      ensures this.eventType == eventType
    {
      this.eventType := eventType;
    }
  }

  /** `s` without the first occurrence of `x` (a list's `remove(Object)`). */
  function RemoveFirst<T(==)>(s: seq<T>, x: T): (r: seq<T>)
    ensures x !in s ==> r == s
    ensures x in s ==> |r| == |s| - 1
    ensures multiset(r) == multiset(s) - multiset{x}
  {
    if s == [] then []
    else
      assert s == [s[0]] + s[1..];
      if s[0] == x then s[1..]
      else [s[0]] + RemoveFirst(s[1..], x)
  }

  /** Position of the first occurrence of `x` in `s`. */
  function FirstIndex<T(==)>(s: seq<T>, x: T): (i: nat)
    requires x in s
    ensures i < |s| && s[i] == x
  {
    if s[0] == x then 0 else FirstIndex(s[1..], x) + 1
  }

  /** The occurrence removed is the first one, and the elements around it keep their order. */
  lemma {:induction false} RemoveFirstDropsFirstOccurrence<T>(s: seq<T>, x: T)
    requires x in s
    ensures var i := FirstIndex(s, x);
      && s[i] == x && x !in s[..i] && RemoveFirst(s, x) == s[..i] + s[i + 1..]
  {
    if s[0] != x {
      var t := s[1..];
      assert s == [s[0]] + t;
      RemoveFirstDropsFirstOccurrence(t, x);
      var j := FirstIndex(t, x);
      assert s[..j + 1] == [s[0]] + t[..j];
      assert s[j + 1 + 1..] == t[j + 1..];
    }
  }

  /** Adding a listener that is not registered and then removing it restores the node. */
  lemma {:induction false} RemoveFirstAfterAppend<T>(s: seq<T>, x: T)
    requires x !in s
    ensures RemoveFirst(s + [x], x) == s
  {
    if s != [] {
      assert (s + [x])[1..] == s[1..] + [x];
      RemoveFirstAfterAppend(s[1..], x);
    }
  }

  /** A node of the host's event tree: the listeners registered on it, in order. */
  class EventNode {
    var listeners: seq<EventListener>

    constructor ()
      ensures listeners == []
    {
      listeners := [];
    }

    method AddListener(listener: EventListener)
      modifies this
      ensures listeners == old(listeners) + [listener]
    {
      listeners := listeners + [listener];
    }

    method RemoveListener(listener: EventListener)
      modifies this
      ensures listeners == RemoveFirst(old(listeners), listener)
    {
      listeners := RemoveFirst(listeners, listener);
    }
  }
}
