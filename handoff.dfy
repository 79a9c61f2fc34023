/** The payload the gate sends a map worker over that map's channel
    (`(TcpStream, String, Vector3)` on both sides). */
module Channel {
  import opened Io
  import opened Model

  /** A connection, the authenticated user id, and the position it starts at. */
  datatype Handoff = Handoff(socket: Socket, userId: string, position: Position)
}
