/**
 * The presence registry (Hubs/MessageHub.cs): a process-wide map from a
 * participant identifier to its connection id, and the push channel the
 * real-time messages travel on, modelled as an append-only outbox.
 */
module Hubs {
  import opened Wrappers
  import opened Text

  // ------------------------------------------------------------ transport

  /** What a push carries: bare message text, or the message's fields. */
  datatype Payload =
    | PlainText(content: string)
    | MessageFields(content: string, isUser: bool, createdAt: int)

  /** One `Clients.User(user).SendAsync(clientMethod, payload)`. */
  datatype Push = Push(user: string, clientMethod: string, payload: Payload)

  /** The client method every chat push invokes. */
  const ReceiveMessage: string := "ReceiveMessage"

  /** The hub's client proxies: every push sent so far, oldest first. */
  class Transport {
    var pushes: seq<Push>

    constructor ()
      ensures pushes == []
    {
      pushes := [];
    }

    method SendAsync(user: string, clientMethod: string, payload: Payload)
      modifies this`pushes
      ensures pushes == old(pushes) + [Push(user, clientMethod, payload)]
    {
      pushes := pushes + [Push(user, clientMethod, payload)];
    }
  }

  /**
   * The pushes a presence-checked delivery to `recipient` makes: one
   * `ReceiveMessage` push when the recipient is online, none when offline.
   */
  function Delivery(online: map<string, string>, recipient: string, payload: Payload): (r: seq<Push>)
    ensures |r| <= 1
    ensures |r| == 1 <==> recipient in online
    ensures forall i | 0 <= i < |r| :: r[i] == Push(recipient, ReceiveMessage, payload)
  {
    if recipient in online then [Push(recipient, ReceiveMessage, payload)] else []
  }

  // ------------------------------------------------------------- registry

  /** A transport event, with the identifier claim it carried (absent claim: None). */
  datatype PresenceEvent =
    | Connect(userId: Option<string>, connectionId: string)
    | Disconnect(userId: Option<string>)

  /**
   * The registry after one event: a connect stores its connection id under
   * the identifier, replacing any earlier one; a disconnect removes the
   * identifier whatever it was mapped to; an event without an identifier
   * changes nothing.
   */
  function Apply(online: map<string, string>, e: PresenceEvent): (r: map<string, string>)
    ensures IsNullOrEmpty(e.userId) ==> r == online
    ensures !IsNullOrEmpty(e.userId) && e.Connect? ==>
              e.userId.value in r && r[e.userId.value] == e.connectionId
    ensures !IsNullOrEmpty(e.userId) && e.Disconnect? ==> e.userId.value !in r
    ensures forall k | e.userId != Some(k) :: (k in r <==> k in online)
    ensures forall k | k in r && e.userId != Some(k) :: r[k] == online[k]
  {
    if IsNullOrEmpty(e.userId) then online
    else match e
      case Connect(u, c) => online[u.value := c]
      case Disconnect(u) => online - {u.value}
  }

  /** The registry after a sequence of events, applied oldest first. */
  function Replay(online: map<string, string>, es: seq<PresenceEvent>): map<string, string>
  {
    if es == [] then online else Apply(Replay(online, es[..|es| - 1]), es[|es| - 1])
  }

  /** The connection id the registry holds for `u`, if any. */
  function Lookup(online: map<string, string>, u: string): Option<string> {
    if u in online then Some(online[u]) else None
  }

  /**
   * Last connect wins: after any sequence of events, what the registry holds
   * for `u` is decided by the last event that named `u`.
   */
  lemma {:induction false} LastWriterWins(online: map<string, string>, es: seq<PresenceEvent>, u: string, i: nat)
    requires u != ""
    requires i < |es| && es[i].userId == Some(u)
    requires forall j | i < j < |es| :: es[j].userId != Some(u)
    ensures Lookup(Replay(online, es), u) == if es[i].Connect? then Some(es[i].connectionId) else None
    decreases |es|
  {
    var front := es[..|es| - 1];
    if i < |es| - 1 {
      assert front[i] == es[i];
      LastWriterWins(online, front, u, i);
    }
  }

  /** An identifier no event named keeps whatever it had before. */
  lemma {:induction false} Untouched(online: map<string, string>, es: seq<PresenceEvent>, u: string)
    requires forall j | 0 <= j < |es| :: es[j].userId != Some(u)
    ensures Lookup(Replay(online, es), u) == Lookup(online, u)
    decreases |es|
  {
    if es != [] {
      var front := es[..|es| - 1];
      assert forall j | 0 <= j < |front| :: front[j] == es[j];
      Untouched(online, front, u);
    }
  }

  /** A participant that never connected receives no push. */
  lemma NeverConnectedGetsNothing(es: seq<PresenceEvent>, u: string, payload: Payload)
    requires forall j | 0 <= j < |es| :: es[j].userId != Some(u)
    ensures Delivery(Replay(map[], es), u, payload) == []
  {
    Untouched(map[], es, u);
  }

  /** Right after a disconnect of `u`, a delivery to `u` pushes nothing. */
  lemma NoStaleDelivery(online: map<string, string>, u: string, payload: Payload)
    requires u != ""
    ensures Delivery(Apply(online, Disconnect(Some(u))), u, payload) == []
  {
  }

  // --------------------------------------------------------------- the hub

  /** How an asynchronous call ended: it ran to completion or threw. */
  datatype Outcome = Completed | Threw

  class MessageHub {
    /** `OnlineUsers`: static, so one registry shared by every hub instance. */
    var onlineUsers: map<string, string>
    /** `Clients`: the hub's own push channel. */
    const clients: Transport

    constructor (clients: Transport)
      ensures onlineUsers == map[] && this.clients == clients
    {
      onlineUsers := map[];
      this.clients := clients;
    }

    /**
     * Registers the caller's identifier claim under its connection id; a
     * missing or empty claim throws and registers nothing.
     */
    method OnConnectedAsync(userId: Option<string>, connectionId: string) returns (r: Outcome)
      modifies this`onlineUsers
      ensures r == if IsNullOrEmpty(userId) then Threw else Completed
      ensures onlineUsers == Apply(old(onlineUsers), Connect(userId, connectionId))
    {
      if IsNullOrEmpty(userId) {
        return Threw;
      }
      onlineUsers := onlineUsers[userId.value := connectionId];
      r := Completed;
    }

    /**
     * Removes the caller's identifier; absent from the registry or without
     * a claim, nothing happens.
     */
    method OnDisconnectedAsync(userId: Option<string>) returns (r: Outcome)
      modifies this`onlineUsers
      ensures r == Completed
      ensures onlineUsers == Apply(old(onlineUsers), Disconnect(userId))
    {
      if !IsNullOrEmpty(userId) {
        onlineUsers := onlineUsers - {userId.value};
      }
      r := Completed;
    }

    /** `OnlineUsers.ContainsKey`: a read that changes nothing. */
    function IsUserOnline(userId: string): (online: bool)
      reads this
      ensures online <==> Lookup(onlineUsers, userId).Some?
    {
      userId in onlineUsers
    }

    /** Pushes the text to `shopId` when it is online; offline, nothing is sent or stored. */
    method BroadcastMessage(shopId: string, messageContent: string)
      modifies clients`pushes
      ensures clients.pushes == old(clients.pushes) + Delivery(onlineUsers, shopId, PlainText(messageContent))
    {
      var isOnline := IsUserOnline(shopId);
      if isOnline {
        clients.SendAsync(shopId, ReceiveMessage, PlainText(messageContent));
      }
    }
  }
}
