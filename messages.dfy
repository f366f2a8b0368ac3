/** The message record shared by the component and the summarize endpoint. */
module Messages {

  /** `{ text, sender }`; the component writes only "user" and "bot" as the
      sender, the summarize endpoint accepts any string. */
  datatype Message = Message(text: string, sender: string)

  const UserSender := "user"
  const BotSender := "bot"

  /** `defaultGreeting`, the single message of a fresh conversation. */
  const Greeting := Message("Hello! How can I help you today?", BotSender)
}
