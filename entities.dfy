/** The records the components exchange. They are owned by the hosted backend
    and arrive as snapshots; the client only reads and copies them. */
module Entities {
  import opened Common

  /** A signed-in account as the authentication service reports it. */
  datatype User = User(uid: string, displayName: string, email: string, photoURL: Option<string>)

  /** The author snapshot stored inside every message. */
  datatype Author = Author(id: string, name: string, avatar: Option<string>)

  /** The timestamp of a message: the server fills in the placeholder on write. */
  datatype Timestamp = ServerTimestamp | Millis(ms: int)

  /** A chat message: text content and, for a file message, the image URL. */
  datatype Message = Message(timestamp: Timestamp, user: Author, content: string, image: Option<string>)

  /** The creator of a public channel. Direct-message channels have none. */
  datatype Creator = Creator(name: string, avatar: Option<string>)

  datatype Channel = Channel(id: string, name: string, details: string, createdBy: Option<Creator>)

  /** One entry of the per-author post tally: the author's avatar and number of posts. */
  datatype PostTally = PostTally(avatar: Option<string>, count: nat)
}
