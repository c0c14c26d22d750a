/** The chat-platform values the core reads and produces: an inbound message
    event, the outcome of sending a message, and the messages and command
    responses it posts. */
module Gateway {
  import opened Results
  import opened Db

  datatype Author = Author(id: Id, name: string, displayName: string, bot: bool)

  /** A received message.  `contentSafe` is the platform's sanitized text
      (`content_safe`); `mentionsQuery` is the result of asking the platform whether
      the message mentions the bot (`None` when that query failed).  A
      message without a guild is a private one. */
  datatype Inbound = Inbound(
    id: Id,
    author: Author,
    guild: Option<Id>,
    channel: Id,
    content: string,
    contentSafe: string,
    referenced: Option<Id>,
    mentionsQuery: Option<bool>)

  /** The message the platform reports back after a successful send. */
  datatype SentReply = SentReply(id: Id, author: Author, contentSafe: string, referenced: Option<Id>)

  datatype SendOutcome = SendFailed | Delivered(reply: SentReply)

  /** A message the bot posts (or attempts to post) in a channel. */
  datatype Outbound = Outbound(channel: Id, content: string, referencing: Option<Id>, mentionsSuppressed: bool)

  /** The response to a slash command. */
  datatype Response = Response(content: string, ephemeral: bool)

  datatype Emoji = Unicode(text: string) | Custom(id: Id)
}
