/** The shapes shared by the front end and the query route: chat messages and
    earnings-call transcripts (`Message` and `Transcript` of the helpers'
    type declarations), plus an optional value for JavaScript's `undefined`. */
module ChatTypes {

  datatype Option<+T> = None | Some(value: T)

  /** Who wrote a message: the `role: "user" | "ai"` field. */
  datatype Role = User | Ai

  datatype Message = Message(role: Role, content: string)

  datatype Transcript = Transcript(content: string)

  /** `messages.map(msg => msg.content)` */
  function MessageContents(messages: seq<Message>): seq<string>
  {
    seq(|messages|, i requires 0 <= i < |messages| => messages[i].content)
  }

  /** `transcripts.map(t => t.content)` */
  function TranscriptContents(transcripts: seq<Transcript>): seq<string>
  {
    seq(|transcripts|, i requires 0 <= i < |transcripts| => transcripts[i].content)
  }
}
