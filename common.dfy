/** Values shared by every part of the bot model. */
module Common {

  /** The result of an external call that may produce nothing (JavaScript `null`/`undefined`). */
  datatype Option<+T> = None | Some(value: T)

  /** A Telegram user identifier, as the bot's handlers receive it in `msg.from.id`. */
  type UserId = nat
}
