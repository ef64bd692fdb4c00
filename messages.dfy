/** The websocket envelope and its type tags (internal/websocket/message.go). */
module Messages {

  const MessageTypeChat: string := "message"
  const MessageTypeSwitchChannel: string := "switch_channel"
  const MessageTypeJoin: string := "join"
  const MessageTypeLeave: string := "leave"

  /** One encoded websocket frame, as it sits in a client's outgoing queue. */
  type Payload = seq<bv8>

  /** The JSON envelope exchanged with browsers; absent JSON fields read as "" or 0. */
  datatype WSMessage = WSMessage(
    msgType: string,
    content: string,
    username: string,
    userID: int,
    channelID: int,
    timestamp: string)
  {
    /** A request to replay another channel's history. */
    predicate IsChannelSwitch() {
      msgType == MessageTypeSwitchChannel
    }

    /** A chat message. */
    predicate IsChatMessage() {
      msgType == MessageTypeChat
    }
  }

  /** The two type tags differ, so no envelope is both a chat message and a channel switch. */
  lemma ChatAndSwitchExclusive(m: WSMessage)
    ensures !(m.IsChatMessage() && m.IsChannelSwitch())
    ensures m.IsChatMessage() <==> m.msgType == "message"
    ensures m.IsChannelSwitch() <==> m.msgType == "switch_channel"
  {
  }

  /** "join" and "leave" are declared but neither predicate accepts them. */
  lemma JoinAndLeaveAreNeither(m: WSMessage)
    requires m.msgType == MessageTypeJoin || m.msgType == MessageTypeLeave
    ensures !m.IsChatMessage() && !m.IsChannelSwitch()
  {
  }
}
