/** The JSON messages exchanged over the browser's WebSocket, as values
    (their `type` field selects the constructor). */
module Protocol {

  /** Server to browser. */
  datatype ServerMessage =
    | ConnectionMessage(id: string)               // "connection", data.id
    | TranscriptMessage(text: string, role: string) // "transcript", data.text / data.role
    | TipMessage(text: string, severity: string)  // "tip", data.text / data.severity
    | NotificationMessage(message: string)        // "notification", data.message

  /** Browser to server. `Unknown` is any other `type`; `Malformed` is a
      frame that `JSON.parse` rejects or whose `type` cannot be read. */
  datatype ClientMessage =
    | StartTranscription
    | StopTranscription
    | AudioData(payload: string)  // base64 audio in `data`
    | ResetConversation
    | Unknown(kind: string)
    | Malformed
}
