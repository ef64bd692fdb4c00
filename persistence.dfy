/**
 * The value-level parts of internal/websocket/persistence.go: the channel defaulting and the
 * save call of saveMessage, and the frames that history replay builds from stored rows.
 */
module Persistence {
  import opened Models
  import opened Messages
  import Database

  /** Capacity of every client's outgoing queue (`make(chan []byte, 256)`). */
  const SendCapacity: nat := 256

  /** Number of history rows requested on replay. */
  const RecentLimit: nat := 50

  /** The arguments of one `SaveMessage` call on the store. */
  datatype SaveRequest = SaveRequest(channelID: int, userID: int, content: string, username: string)

  /** Channel 0 means "unset" and is sent to the general channel; every other id is kept. */
  function DefaultChannel(channelID: int): (r: int)
    ensures r != 0
    ensures channelID != 0 ==> r == channelID
    ensures r == channelID || r == GeneralChannelID
  {
    if channelID == 0 then GeneralChannelID else channelID
  }

  /**
   * saveMessage: the one store call it makes. Its error, if any, is only logged: nothing in
   * the hub depends on it and it is not retried.
   */
  function SaveCall(msg: WSMessage): (req: SaveRequest)
    ensures req.channelID != 0
    ensures msg.channelID != 0 ==> req.channelID == msg.channelID
    ensures msg.channelID == 0 ==> req.channelID == GeneralChannelID
    ensures req.userID == msg.userID && req.content == msg.content && req.username == msg.username
  {
    SaveRequest(DefaultChannel(msg.channelID), msg.userID, msg.content, msg.username)
  }

  /** The envelope sent for one stored row: a chat message carrying the row's fields and time. */
  function ReplayFrame(m: Message, formatTime: Instant -> string): (f: WSMessage)
    ensures f.IsChatMessage() && !f.IsChannelSwitch()
    ensures f.content == m.content && f.username == m.username
    ensures f.userID == m.userID && f.channelID == m.channelID
    ensures f.timestamp == formatTime(m.createdAt)
  {
    WSMessage(MessageTypeChat, m.content, m.username, m.userID, m.channelID, formatTime(m.createdAt))
  }

  /** The encoded frames of a fetched history, one per row, in the same order. */
  function ReplayPayloads(history: seq<Message>, encode: WSMessage -> Payload, formatTime: Instant -> string): (ps: seq<Payload>)
    ensures |ps| == |history|
    ensures forall i :: 0 <= i < |history| ==> ps[i] == encode(ReplayFrame(history[i], formatTime))
  {
    seq(|history|, i requires 0 <= i < |history| => encode(ReplayFrame(history[i], formatTime)))
  }

  /** The first n replay frames are the frames of the first n stored rows. */
  lemma ReplayPrefix(history: seq<Message>, n: nat, encode: WSMessage -> Payload, formatTime: Instant -> string)
    requires n <= |history|
    ensures ReplayPayloads(history, encode, formatTime)[..n] == ReplayPayloads(history[..n], encode, formatTime)
  {
    var whole := ReplayPayloads(history, encode, formatTime);
    var part := ReplayPayloads(history[..n], encode, formatTime);
    forall i | 0 <= i < n
      ensures whole[..n][i] == part[i]
    {
      assert history[..n][i] == history[i];
    }
  }

  /**
   * Replay of a history that the store read newest first and reversed: the `n` rows whose
   * frames fit in the queue are in chronological order, none is newer than a row left out,
   * and the rows left out are exactly the first ones the query returned, the newest.
   */
  lemma ReplayKeepsOldest(rows: seq<Database.RowScan>, n: nat)
    requires Database.ScanAll(rows).Success? && Database.NewestFirst(Database.ScanAll(rows).value)
    requires n <= |rows|
    ensures var scanned := Database.ScanAll(rows).value;
      var history := Database.Reversed(scanned);
      && Database.Chronological(history[..n])
      && (forall i, j :: 0 <= i < n <= j < |history| ==> history[i].createdAt <= history[j].createdAt)
      && history[n..] == Database.Reversed(scanned[..|scanned| - n])
  {
    var scanned := Database.ScanAll(rows).value;
    var history := Database.Reversed(scanned);
    Database.NewestFirstReversedIsChronological(scanned);
    var dropped := scanned[..|scanned| - n];
    forall k | 0 <= k < |scanned| - n
      ensures history[n..][k] == Database.Reversed(dropped)[k]
    {
      Database.ReversedAt(scanned, n + k);
      Database.ReversedAt(dropped, k);
    }
  }

  /** Room left in a queue holding `queued` frames. */
  function Free(queued: nat): (n: nat)
    ensures queued + n == SendCapacity || (n == 0 && queued >= SendCapacity)
  {
    if queued < SendCapacity then SendCapacity - queued else 0
  }

  function Min(a: nat, b: nat): nat {
    if a <= b then a else b
  }
}
