/**
 * The websocket hub of internal/websocket/hub.go: a map from channel id to the set of
 * connected clients, mutated one command at a time by the `Run` loop (register,
 * unregister, broadcast) and by SwitchChannel. Each `select` case is one atomic method.
 */
module Hub {
  import opened Wrappers
  import opened Models
  import opened Messages
  import opened Persistence

  const DevOriginHttp: string := "http://localhost:8080"
  const DevOriginHttps: string := "https://localhost:8080"

  /**
   * The upgrader's CheckOrigin: only the local development front end, over http or https,
   * may open a websocket; a request without an Origin header (read as "") is refused.
   */
  function CheckOrigin(origin: string): (ok: bool)
    ensures ok <==> origin in {DevOriginHttp, DevOriginHttps}
    ensures ok ==> |origin| >= 14 && origin[|origin| - 14..] == "localhost:8080"
    ensures origin == "" ==> !ok
  {
    origin == DevOriginHttp || origin == DevOriginHttps
  }

  /** One connected browser. Identity is fixed at admission; the hub moves it between channels. */
  class Client {
    const userID: int
    const username: string
    var channelID: int
    /** Frames waiting for the write loop (the buffered `send` channel). */
    var send: seq<Payload>
    /** Whether `send` has been closed. */
    var closed: bool

    /** The admission handler's `&Client{...}`: channel 0 (unset), empty open queue. */
    constructor (userID: int, username: string)
      ensures this.userID == userID && this.username == username
      ensures channelID == 0 && send == [] && !closed
    {
      this.userID := userID;
      this.username := username;
      channelID := 0;
      send := [];
      closed := false;
    }

    /**
     * Non-blocking sends of `frames` in order (`select { case send <- f: default: return }`):
     * stops at the first frame that finds the queue full. Sending on a closed queue panics in
     * Go, hence the precondition.
     */
    method Enqueue(frames: seq<Payload>) returns (n: nat)
      requires !closed
      modifies this
      ensures n == Min(|frames|, Free(|old(send)|))
      ensures send == old(send) + frames[..n]
      ensures n < |frames| ==> |send| >= SendCapacity
      ensures channelID == old(channelID) && !closed
    {
      n := 0;
      while n < |frames|
        invariant n <= |frames|
        invariant n <= Free(|old(send)|)
        invariant send == old(send) + frames[..n]
        invariant channelID == old(channelID) && !closed
      {
        if |send| >= SendCapacity {
          return;
        }
        send := send + [frames[n]];
        n := n + 1;
      }
    }
  }

  /** Any key of a non-empty key set; Go's `range` over a map visits keys in no fixed order. */
  method PickKey(keys: set<int>) returns (k: int)
    requires keys != {}
    ensures k in keys
  {
    if forall x :: x !in keys {
      assert false;
    }
    k :| k in keys;
  }

  /** A client's fate in one broadcast: the payload is appended, or the full queue is closed. */
  twostate predicate Offered(c: Client, message: Payload)
    reads c
  {
    && c.channelID == old(c.channelID)
    && if |old(c.send)| < SendCapacity then c.send == old(c.send) + [message] && !c.closed
       else c.send == old(c.send) && c.closed
  }

  class Hub {
    /** channelID -> clients in that channel. */
    var channels: map<int, set<Client>>

    /** NewHub: no channels yet. The store is passed to the methods that use it. */
    constructor ()
      ensures channels == map[] && Valid()
    {
      channels := map[];
    }

    /** Every client currently in some channel's set. */
    ghost function Members(): set<Client>
      reads this
    {
      set k, c | k in channels && c in channels[k] :: c
    }

    /**
     * The hub invariant: a client in `channels[k]` has `channelID == k` (so it sits in at
     * most one set), its queue is open, and the queue holds at most its capacity.
     */
    ghost predicate Valid()
      reads this, Members()
    {
      forall k, c :: k in channels && c in channels[k] ==>
        c.channelID == k && !c.closed && |c.send| <= SendCapacity
    }

    /** A consequence of the invariant: the sets of two different channels never share a client. */
    lemma MemberOfOneChannel(c: Client, k1: int, k2: int)
      requires Valid()
      requires k1 in channels && k2 in channels && c in channels[k1] && c in channels[k2]
      ensures k1 == k2
    {
      assert c.channelID == k1 && c.channelID == k2;
    }

    /**
     * The register case of Run: channel 0 is replaced by the general channel, the set is
     * created if absent, the client is added, and no other channel changes. The history
     * replay it starts (`go h.sendRecentMessages(client)`) is the separate step
     * SendRecentMessages.
     */
    method Register(c: Client)
      requires Valid()
      requires !c.closed && |c.send| <= SendCapacity && c !in Members()
      modifies this, c
      ensures Valid()
      ensures c.channelID == DefaultChannel(old(c.channelID))
      ensures c.channelID in channels && c in channels[c.channelID]
      ensures channels.Keys == old(channels).Keys + {c.channelID}
      ensures c.channelID in old(channels) ==> channels[c.channelID] == old(channels)[c.channelID] + {c}
      ensures c.channelID !in old(channels) ==> channels[c.channelID] == {c}
      ensures forall k :: k in old(channels) && k != c.channelID ==> channels[k] == old(channels)[k]
      ensures c.send == old(c.send) && !c.closed
    {
      if c.channelID == 0 {
        c.channelID := GeneralChannelID;
      }
      Insert(c);
    }

    /** `if h.channels[id] == nil { make }; h.channels[id][client] = true` for the client's own id. */
    method Insert(c: Client)
      requires Valid()
      requires !c.closed && |c.send| <= SendCapacity && c !in Members()
      modifies this
      ensures Valid()
      ensures channels == old(channels)[c.channelID := (if c.channelID in old(channels) then old(channels)[c.channelID] else {}) + {c}]
    {
      var k := c.channelID;
      if k !in channels {
        channels := channels[k := {}];
      }
      channels := channels[k := channels[k] + {c}];
      assert forall k', c' :: k' in channels && c' in channels[k'] && c' != c ==> k' in old(channels) && c' in old(channels)[k'];
    }

    /**
     * The unregister case of Run: only a client found in the set of its own channel is
     * removed and has its queue closed; the channel entry is deleted exactly when that set
     * becomes empty. For any other client nothing changes, so a second unregister is a no-op
     * and a queue is never closed twice.
     */
    method Unregister(c: Client)
      requires Valid()
      modifies this, c
      ensures Valid()
      ensures c !in Members()
      ensures c.channelID == old(c.channelID) && c.send == old(c.send)
      ensures var k := c.channelID;
        if k in old(channels) && c in old(channels)[k] then
          && !old(c.closed) && c.closed
          && (old(channels)[k] == {c} ==> channels == map k' | k' in old(channels) && k' != k :: old(channels)[k'])
          && (old(channels)[k] != {c} ==> channels == old(channels)[k := old(channels)[k] - {c}])
        else
          channels == old(channels) && c.closed == old(c.closed)
    {
      var k := c.channelID;
      if k in channels {
        var clients := channels[k];
        if c in clients {
          clients := clients - {c};
          channels := channels[k := clients];
          c.closed := true;
          if |clients| == 0 {
            channels := map k' | k' in channels && k' != k :: channels[k'];
          }
        }
      }
      assert forall k', c' :: k' in channels && c' in channels[k'] ==> k' in old(channels) && c' in old(channels)[k'] && c' != c;
    }

    /**
     * The broadcast case of Run. A payload that does not decode changes nothing and saves
     * nothing. Otherwise the save is dispatched (fire and forget) and every client of every
     * channel, not only the sender's, either gets the payload appended (queue has room) or is
     * closed and removed from its set (queue full). Entries left empty by eviction stay in
     * the map.
     */
    method Broadcast(message: Payload, decode: Payload -> Option<WSMessage>) returns (save: Option<SaveRequest>)
      requires Valid()
      modifies this, Members()
      ensures Valid()
      ensures decode(message).None? ==> save == None && channels == old(channels)
      ensures decode(message).None? ==> forall c :: c in old(Members()) ==> unchanged(c)
      ensures decode(message).Some? ==> save == Some(SaveCall(decode(message).value))
      ensures decode(message).Some? ==> channels.Keys == old(channels).Keys
      ensures decode(message).Some? ==> forall k :: k in channels ==>
        channels[k] == set c | c in old(channels)[k] && |old(c.send)| < SendCapacity
      ensures decode(message).Some? ==> forall c :: c in old(Members()) ==> Offered(c, message)
    {
      var decoded := decode(message);
      if decoded.None? {
        return None;
      }
      save := Some(SaveCall(decoded.value));
      ghost var members := Members();
      var keys := channels.Keys;
      while keys != {}
        invariant keys <= channels.Keys
        invariant channels.Keys == old(channels).Keys
        invariant forall k :: k in keys ==> channels[k] == old(channels)[k]
        invariant forall k :: k in channels && k !in keys ==>
          channels[k] == set c | c in old(channels)[k] && |old(c.send)| < SendCapacity
        invariant forall c :: c in members && c.channelID in keys ==> unchanged(c)
        invariant forall c :: c in members && c.channelID !in keys ==> Offered(c, message)
        decreases keys
      {
        var k := PickKey(keys);
        FanOut(k, message);
        keys := keys - {k};
      }
    }

    /**
     * The inner `for client := range clients` of a broadcast over one channel's set: each
     * client gets a non-blocking send or, when its queue is full, is closed and deleted.
     */
    method FanOut(k: int, message: Payload)
      requires k in channels
      requires forall c :: c in channels[k] ==> c.channelID == k && !c.closed
      modifies this, channels[k]
      ensures channels == old(channels)[k := set c | c in old(channels)[k] && |old(c.send)| < SendCapacity]
      ensures forall c :: c in old(channels)[k] ==> Offered(c, message)
    {
      var pending := channels[k];
      while pending != {}
        invariant pending <= old(channels)[k]
        invariant k in channels && channels == old(channels)[k := channels[k]]
        invariant forall c :: c in channels[k] <==> c in old(channels)[k] && (c in pending || |old(c.send)| < SendCapacity)
        invariant forall c :: c in pending ==> unchanged(c)
        invariant forall c :: c in old(channels)[k] && c !in pending ==> Offered(c, message)
        decreases pending
      {
        if forall x :: x !in pending {
          assert false;
        }
        var c :| c in pending;
        if |c.send| < SendCapacity {
          c.send := c.send + [message];
        } else {
          c.closed := true;
          channels := channels[k := channels[k] - {c}];
        }
        pending := pending - {c};
      }
      ghost var kept := set c | c in old(channels)[k] && |old(c.send)| < SendCapacity;
      assert channels[k] == kept;
      assert channels == old(channels)[k := kept];
    }

    /**
     * SwitchChannel: the client leaves its current set (whose entry is dropped if it became
     * empty) and joins `newChannelID`'s set, created if absent; afterwards it is in exactly
     * that one set and no other channel changes. Re-adding a closed queue would let the next
     * broadcast send on it, hence the precondition.
     */
    method SwitchChannel(c: Client, newChannelID: int)
      requires Valid()
      requires !c.closed && |c.send| <= SendCapacity
      modifies this, c
      ensures Valid()
      ensures c.channelID == newChannelID && c.send == old(c.send) && !c.closed
      ensures newChannelID in channels && c in channels[newChannelID]
      ensures forall k :: k in channels && k != newChannelID ==> c !in channels[k]
      ensures channels[newChannelID] == (if newChannelID in old(channels) then old(channels)[newChannelID] else {}) + {c}
      ensures var k := old(c.channelID);
        k != newChannelID ==>
          && (k in channels <==> k in old(channels) && old(channels)[k] - {c} != {})
          && (k in channels ==> channels[k] == old(channels)[k] - {c})
      ensures forall k :: k != old(c.channelID) && k != newChannelID ==>
        (k in channels <==> k in old(channels)) && (k in channels ==> channels[k] == old(channels)[k])
    {
      Leave(c);
      c.channelID := newChannelID;
      Insert(c);
    }

    /** The removal half of SwitchChannel: delete from the current set, drop the entry if it is now empty. */
    method Leave(c: Client)
      requires Valid()
      modifies this
      ensures Valid()
      ensures c !in Members()
      ensures var k := c.channelID;
        && (k in old(channels) && old(channels)[k] - {c} != {} ==> channels == old(channels)[k := old(channels)[k] - {c}])
        && (k !in old(channels) ==> channels == old(channels))
        && (k in old(channels) && old(channels)[k] - {c} == {} ==>
              channels == map k' | k' in old(channels) && k' != k :: old(channels)[k'])
    {
      var k := c.channelID;
      if k in channels {
        var clients := channels[k] - {c};
        channels := channels[k := clients];
        if |clients| == 0 {
          channels := map k' | k' in channels && k' != k :: channels[k'];
        }
      }
      assert forall k', c' :: k' in channels && c' in channels[k'] ==> k' in old(channels) && c' in old(channels)[k'] && c' != c;
    }

    /**
     * Hub.sendRecentMessages: fetch up to 50 stored rows of the client's current channel and
     * enqueue their frames, in order, until the queue is full. A failed fetch enqueues
     * nothing. Only this client's queue changes.
     */
    method SendRecentMessages(c: Client, fetch: (int, nat) -> Result<seq<Message>, DbError>,
                              encode: WSMessage -> Payload, formatTime: Instant -> string)
      requires Valid()
      requires !c.closed && |c.send| <= SendCapacity
      modifies c
      ensures Valid()
      ensures c.channelID == old(c.channelID) && !c.closed
      ensures fetch(c.channelID, RecentLimit).Failure? ==> c.send == old(c.send)
      ensures fetch(c.channelID, RecentLimit).Success? ==>
        var history := fetch(c.channelID, RecentLimit).value;
        c.send == old(c.send) + ReplayPayloads(history[..Min(|history|, Free(|old(c.send)|))], encode, formatTime)
    {
      var history := fetch(c.channelID, RecentLimit);
      if history.Failure? {
        return;
      }
      var frames := ReplayPayloads(history.value, encode, formatTime);
      var n := c.Enqueue(frames);
      ReplayPrefix(history.value, n, encode, formatTime);
    }
  }
}
