/** The values the message pipeline works on: audiences, the immutable message context and placeholder queries. */
module Messages {
  import opened Common

  /** A player's MUUID (its UUID and USID). */
  datatype Muuid = Muuid(uuid: string, usid: string)

  /**
    * An audience as the pipeline sees it: Audience.empty(), or a single recipient whose metadata
    * may carry a MUUID (players do).
    */
  datatype Audience = EmptyAudience | Member(name: string, muuid: Option<Muuid>)

  datatype Kind = Chat | Command

  /** MessageContext; built without them, `filter` is false and `kind` is CHAT. */
  datatype MessageContext = MessageContext(sender: Audience, target: Audience, message: string,
                                           filter: bool := false, kind: Kind := Chat)

  /** A key of a placeholder argument container. */
  datatype Key = Key(namespace: string, name: string)

  /** The key under which the processed message is handed to the template. */
  const MessageKey: Key := Key("flex", "message")

  /** PlaceholderContext: the subject, the query to render and its arguments. */
  datatype PlaceholderContext = PlaceholderContext(subject: Audience, query: string, arguments: map<Key, string>)

  /** TemplateManager.CHAT_TEMPLATE_NAME; TemplateManager is not part of this model, so its value is left open. */
  const ChatTemplateName: string

  /**
    * A context built from sender, target and message alone has the documented defaults, and copying
    * it with a new message changes the message only.
    */
  lemma ContextDefaultsAndCopy(sender: Audience, target: Audience, message: string, replacement: string)
    ensures MessageContext(sender, target, message).filter == false
    ensures MessageContext(sender, target, message).kind == Chat
    ensures var copy := MessageContext(sender, target, message).(message := replacement);
      copy.message == replacement && copy.sender == sender && copy.target == target &&
      copy.filter == false && copy.kind == Chat
  {
  }

  /** A message is either chat or a command, nothing else. */
  lemma KindIsChatOrCommand(k: Kind)
    ensures k == Chat || k == Command
  {
  }
}
