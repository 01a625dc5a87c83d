/** What travels through a turn queue of the OpenClaw connection. */
module TurnItems {
  import opened ChatText

  /** `Chat`: a `chat` event. `Tool`: a `session.tool` event, `readable` if it parses into a tool
      call. `Rejected`: a `res` with ok false. `Lost`: the connection ended. `Overflow`: the
      queue did. */
  datatype Item =
    | Chat(ev: Event)
    | Tool(id: nat, readable: bool)
    | Rejected
    | Lost(message: string)
    | Overflow
}
