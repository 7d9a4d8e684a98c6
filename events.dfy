/**
 * The events both relay servers react to, one handler run at a time: a
 * connection opening (with the `uuid()` it is given), a frame arriving, the
 * socket leaving readyState OPEN, and the `close` event.
 */
module Events {
  import opened Envelopes
  import opened Sockets

  datatype Event =
    | Connect(ws: Socket, id: string)
    | Message(ws: Socket, frame: Frame)
    | Closing(ws: Socket)
    | Close(ws: Socket)
}
