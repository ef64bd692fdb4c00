/**
 * One connection's read side (internal/websocket/client.go). readPump reads frames until the
 * first read error; for each frame it may save to the message service, hand an encoded
 * broadcast to the hub, or replay history into its own queue; when the loop ends it hands the
 * client to unregister and closes the connection. The model records these actions, in order,
 * as a trace of effects; the per-frame save outcome and the clock are oracles indexed by the
 * frame's position.
 */
module Session {
  import opened Wrappers
  import opened Models
  import opened Messages
  import opened Persistence
  import Hub

  /** What readPump does to the world, in program order. */
  datatype Effect =
    | SaveAttempt(channelID: int, userID: int, content: string)  // messageService.SaveMessage
    | Broadcast(frame: WSMessage)                                  // hub.broadcast <- json.Marshal(frame)
    | ReplayHistory(channelID: int)                                // c.sendRecentMessages(channelID)
    | Unregister                                                   // deferred hub.unregister <- c
    | CloseConnection                                              // deferred c.conn.Close()

  /**
   * The effects of one frame read by `c`. Only a chat frame with content is saved (to the
   * defaulted channel, as the bound user); only a successful save is followed by a broadcast,
   * whose identity fields are the bound identity, not the client's. A switch frame only asks
   * for history of the channel it names. Anything else has no effect.
   */
  function FrameEffects(c: Hub.Client, msg: WSMessage, saveOk: bool, now: string): (es: seq<Effect>)
    ensures es == [] <==> !(msg.IsChatMessage() && msg.content != "") && !msg.IsChannelSwitch()
    ensures msg.IsChatMessage() && msg.content != "" ==>
      && es[0] == SaveAttempt(DefaultChannel(msg.channelID), c.userID, msg.content)
      && |es| == if saveOk then 2 else 1
    ensures msg.IsChatMessage() && msg.content != "" && saveOk ==>
      es[1] == Broadcast(msg.(userID := c.userID, username := c.username, channelID := DefaultChannel(msg.channelID), timestamp := now))
    ensures msg.IsChannelSwitch() ==> es == [ReplayHistory(msg.channelID)]
    ensures forall e :: e in es && e.Broadcast? ==>
      && saveOk && msg.IsChatMessage() && msg.content != "" && e.frame.IsChatMessage() && e.frame.content == msg.content && e.frame.content != ""
      && e.frame.userID == c.userID && e.frame.username == c.username
      && e.frame.channelID == DefaultChannel(msg.channelID) && e.frame.timestamp == now
    ensures forall e :: e in es && e.ReplayHistory? ==> msg.IsChannelSwitch() && es == [ReplayHistory(msg.channelID)]
    ensures forall e :: e in es ==> !e.Unregister? && !e.CloseConnection?
  {
    if msg.IsChatMessage() && msg.content != "" then
      var channelID := DefaultChannel(msg.channelID);
      var save := [SaveAttempt(channelID, c.userID, msg.content)];
      if saveOk then
        save + [Broadcast(msg.(userID := c.userID, username := c.username, channelID := channelID, timestamp := now))]
      else
        save
    else if msg.IsChannelSwitch() then
      [ReplayHistory(msg.channelID)]
    else
      []
  }

  /** The effects of reading `frames` in order (before the loop ends). */
  function Effects(c: Hub.Client, frames: seq<WSMessage>, saved: nat -> bool, clock: nat -> string): seq<Effect>
  {
    if frames == [] then []
    else
      var n := |frames| - 1;
      Effects(c, frames[..n], saved, clock) + FrameEffects(c, frames[n], saved(n), clock(n))
  }

  /**
   * readPump over the frames read before the first read error: the frames' effects in order,
   * then, exactly once and last, unregister and connection close.
   */
  method ReadPump(c: Hub.Client, frames: seq<WSMessage>, saved: nat -> bool, clock: nat -> string)
    returns (trace: seq<Effect>)
    ensures trace == Effects(c, frames, saved, clock) + [Unregister, CloseConnection]
    ensures |trace| >= 2 && trace[|trace| - 2] == Unregister && trace[|trace| - 1] == CloseConnection
    ensures forall i :: 0 <= i < |trace| - 2 ==> !trace[i].Unregister? && !trace[i].CloseConnection?
  {
    trace := [];
    var i := 0;
    while i < |frames|
      invariant 0 <= i <= |frames|
      invariant trace == Effects(c, frames[..i], saved, clock)
    {
      assert frames[..i + 1][..i] == frames[..i];
      var msg := frames[i];
      if msg.msgType == "message" && msg.content != "" {
        var channelID := msg.channelID;
        if channelID == 0 {
          channelID := 1;
        }
        trace := trace + [SaveAttempt(channelID, c.userID, msg.content)];
        if !saved(i) {
          i := i + 1;
          continue;
        }
        msg := msg.(userID := c.userID, username := c.username, channelID := channelID, timestamp := clock(i));
        trace := trace + [Broadcast(msg)];
      } else if msg.msgType == "switch_channel" {
        trace := trace + [ReplayHistory(msg.channelID)];
      }
      i := i + 1;
    }
    assert frames[..i] == frames;
    NoTeardownWhileReading(c, frames, saved, clock);
    trace := trace + [Unregister, CloseConnection];
  }

  /** The read loop itself never unregisters or closes; only its exit does. */
  lemma {:induction false} NoTeardownWhileReading(c: Hub.Client, frames: seq<WSMessage>, saved: nat -> bool, clock: nat -> string)
    ensures forall e :: e in Effects(c, frames, saved, clock) ==> !e.Unregister? && !e.CloseConnection?
  {
    if frames != [] {
      NoTeardownWhileReading(c, frames[..|frames| - 1], saved, clock);
    }
  }

  /**
   * Nothing readPump should act on is dropped: every chat frame with content is saved, every
   * one whose save succeeds is broadcast under the bound identity and its stamp, and every
   * switch frame asks for the history of the channel it names.
   */
  lemma {:induction false} EveryFrameIsActedOn(c: Hub.Client, frames: seq<WSMessage>, saved: nat -> bool, clock: nat -> string)
    ensures forall i :: 0 <= i < |frames| && frames[i].IsChatMessage() && frames[i].content != "" ==>
      SaveAttempt(DefaultChannel(frames[i].channelID), c.userID, frames[i].content) in Effects(c, frames, saved, clock)
    ensures forall i :: 0 <= i < |frames| && frames[i].IsChatMessage() && frames[i].content != "" && saved(i) ==>
      Broadcast(frames[i].(userID := c.userID, username := c.username,
                           channelID := DefaultChannel(frames[i].channelID), timestamp := clock(i)))
        in Effects(c, frames, saved, clock)
    ensures forall i :: 0 <= i < |frames| && frames[i].IsChannelSwitch() ==>
      ReplayHistory(frames[i].channelID) in Effects(c, frames, saved, clock)
  {
    if frames != [] {
      var n := |frames| - 1;
      EveryFrameIsActedOn(c, frames[..n], saved, clock);
      var prefix := Effects(c, frames[..n], saved, clock);
      var last := FrameEffects(c, frames[n], saved(n), clock(n));
      assert Effects(c, frames, saved, clock) == prefix + last;
      forall i | 0 <= i < n
        ensures frames[i] == frames[..n][i]
      {
      }
    }
  }

  /** Every broadcast readPump issues carries the bound identity, a non-zero channel and content. */
  lemma {:induction false} BroadcastsCarryBoundIdentity(c: Hub.Client, frames: seq<WSMessage>, saved: nat -> bool, clock: nat -> string)
    ensures forall e :: e in Effects(c, frames, saved, clock) && e.Broadcast? ==>
      && e.frame.IsChatMessage() && e.frame.content != ""
      && e.frame.userID == c.userID && e.frame.username == c.username && e.frame.channelID != 0
  {
    if frames != [] {
      BroadcastsCarryBoundIdentity(c, frames[..|frames| - 1], saved, clock);
    }
  }

  /** In trace `t`, each broadcast comes right after the save of its channel and content by `userID`. */
  ghost predicate SavedBeforeBroadcast(t: seq<Effect>, userID: int) {
    forall i :: 0 <= i < |t| && t[i].Broadcast? ==>
      i > 0 && t[i - 1] == SaveAttempt(t[i].frame.channelID, userID, t[i].frame.content)
  }

  /** Every broadcast is immediately preceded by the save of the same channel, user and content. */
  lemma {:induction false} BroadcastFollowsItsSave(c: Hub.Client, frames: seq<WSMessage>, saved: nat -> bool, clock: nat -> string)
    ensures SavedBeforeBroadcast(Effects(c, frames, saved, clock), c.userID)
  {
    if frames != [] {
      var n := |frames| - 1;
      BroadcastFollowsItsSave(c, frames[..n], saved, clock);
      var prefix := Effects(c, frames[..n], saved, clock);
      var last := FrameEffects(c, frames[n], saved(n), clock(n));
      var t := prefix + last;
      forall i | 0 <= i < |t| && t[i].Broadcast?
        ensures i > 0 && t[i - 1] == SaveAttempt(t[i].frame.channelID, c.userID, t[i].frame.content)
      {
        if i >= |prefix| {
          assert t[i] == last[i - |prefix|] && last[i - |prefix|] in last;
          assert i - |prefix| == 1 && t[i - 1] == last[0];
        } else {
          assert t[i] == prefix[i] && prefix[i].Broadcast?;
          assert i > 0 && prefix[i - 1] == SaveAttempt(prefix[i].frame.channelID, c.userID, prefix[i].frame.content);
          assert t[i - 1] == prefix[i - 1];
        }
      }
    }
  }

  /** If every save fails, readPump broadcasts nothing. */
  lemma {:induction false} FailedSavesBroadcastNothing(c: Hub.Client, frames: seq<WSMessage>, saved: nat -> bool, clock: nat -> string)
    requires forall i :: 0 <= i < |frames| ==> !saved(i)
    ensures forall e :: e in Effects(c, frames, saved, clock) ==> !e.Broadcast?
  {
    if frames != [] {
      FailedSavesBroadcastNothing(c, frames[..|frames| - 1], saved, clock);
    }
  }

  /**
   * The hub saves each broadcast again: when the hub decodes the frame readPump encoded,
   * its save call repeats the save readPump already made (same channel, user and content).
   */
  lemma HubSavesBroadcastAgain(c: Hub.Client, frames: seq<WSMessage>, saved: nat -> bool, clock: nat -> string,
                               encode: WSMessage -> Payload, decode: Payload -> Option<WSMessage>, i: nat)
    requires i < |Effects(c, frames, saved, clock)| && Effects(c, frames, saved, clock)[i].Broadcast?
    requires decode(encode(Effects(c, frames, saved, clock)[i].frame)) == Some(Effects(c, frames, saved, clock)[i].frame)
    ensures var t := Effects(c, frames, saved, clock);
      var req := SaveCall(decode(encode(t[i].frame)).value);
      i > 0 && t[i - 1] == SaveAttempt(req.channelID, req.userID, req.content) && req.username == c.username
  {
    var t := Effects(c, frames, saved, clock);
    BroadcastFollowsItsSave(c, frames, saved, clock);
    BroadcastsCarryBoundIdentity(c, frames, saved, clock);
    assert t[i] in t;
  }

  /**
   * Client.sendRecentMessages (used for switch_channel frames): fetch the 50 latest rows of
   * `channelID` and enqueue their frames, in order, until the queue is full; a failed fetch
   * enqueues nothing. Sending on a closed queue panics in Go, hence the precondition.
   */
  method SendRecentMessages(c: Hub.Client, channelID: int, fetch: (int, nat) -> Result<seq<Message>, DbError>,
                            encode: WSMessage -> Payload, formatTime: Instant -> string)
    requires !c.closed
    modifies c
    ensures c.channelID == old(c.channelID) && !c.closed
    ensures fetch(channelID, RecentLimit).Failure? ==> c.send == old(c.send)
    ensures fetch(channelID, RecentLimit).Success? ==>
      var history := fetch(channelID, RecentLimit).value;
      c.send == old(c.send) + ReplayPayloads(history[..Min(|history|, Free(|old(c.send)|))], encode, formatTime)
  {
    var history := fetch(channelID, RecentLimit);
    if history.Failure? {
      return;
    }
    var frames := ReplayPayloads(history.value, encode, formatTime);
    var n := c.Enqueue(frames);
    ReplayPrefix(history.value, n, encode, formatTime);
  }
}
