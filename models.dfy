/** Records shared by the database layers and the websocket package (internal/models, internal/core). */
module Models {

  /** The "general" channel every client joins when it has not chosen one. */
  const GeneralChannelID: int := 1

  /** A point in time, as stored in the `created_at` column; larger is later. */
  type Instant = int

  /** An error reported by the database driver (query, scan or exec). */
  datatype DbError = DbError(reason: string)

  /** A stored chat message joined with its author's username (models.Message and core.Message). */
  datatype Message = Message(
    id: int,
    channelID: int,
    userID: int,
    content: string,
    createdAt: Instant,
    username: string)
}
