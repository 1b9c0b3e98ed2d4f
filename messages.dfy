/** The chat-history entries the server controllers build and store. The
    `id` (`${Date.now()}-${Math.random()}`) and `createdAt` (`Date.now()`)
    fields come from the clock and the random generator, so the model takes
    them as parameters. */
module Messages {
  import opened Common

  datatype Message =
    /** `chat:send`: `type: "chat"`. */
    | ChatText(id: string, roomId: string, text: string, user: string, from: string, createdAt: int)
    /** `chat:send:voice`: `type: "voice"`; `duration` is the payload value as sent. */
    | ChatVoice(id: string, roomId: string, audio: string, duration: JsValue, mimeType: string,
                user: string, from: string, createdAt: int)
    /** The join and leave notes of `room:join` and `disconnecting`: `type: "system"`, `user: "system"`. */
    | SystemNote(id: string, roomId: string, text: string, createdAt: int)
    /** `dm:send`: a direct message, which has no `type` field. */
    | Direct(id: string, dmId: string, text: string, user: string, to: string, createdAt: int)
  {
    /** The `type` field; `""` for a direct message, which has none. */
    function Type(): string {
      match this
      case ChatText(_, _, _, _, _, _) => "chat"
      case ChatVoice(_, _, _, _, _, _, _, _) => "voice"
      case SystemNote(_, _, _, _) => "system"
      case Direct(_, _, _, _, _, _) => ""
    }

    /** The `user` field. */
    function Author(): string {
      match this
      case ChatText(_, _, _, u, _, _) => u
      case ChatVoice(_, _, _, _, _, u, _, _) => u
      case SystemNote(_, _, _, _) => "system"
      case Direct(_, _, _, u, _, _) => u
    }
  }
}
