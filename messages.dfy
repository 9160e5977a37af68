/** The conversation turns exchanged between the host and the streaming session. */
module Messages {
  import opened Wrappers

  /**
   * One turn of a chat. Every turn carries an opaque `id`; an assistant turn also names
   * the model that produced it, a human turn the user who typed it (when signed in).
   */
  datatype ChatMessage =
    | HumanMessage(id: string, text: string, user: Option<string>)
    | AiMessage(id: string, model: string, text: string)
    | SystemMessage(id: string, text: string)
}
