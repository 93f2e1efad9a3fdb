/** Identifiers of the chat platform and the one optional-value wrapper the model needs. */
module Ids {

  /** Platform snowflakes are handled as strings throughout the bot. */
  type GuildId = string
  type ChannelId = string
  type MessageId = string
  type RoleId = string
  type UserId = string
  type CommandName = string

  datatype Option<+T> = None | Some(value: T)

  /** A JavaScript string is truthy exactly when it is present and not empty. */
  predicate Truthy(s: Option<string>)
  {
    s.Some? && s.value != ""
  }
}
