/** `std::io::Error` as the socket layer reports it. */
module Io {

  /** A live TCP connection, known only by an opaque handle. */
  type Socket = nat

  /** The error kinds the code tells apart; `Other` stands for every other kind. */
  datatype ErrorKind = WouldBlock | UnexpectedEof | Other

  /** An I/O error: its kind and its `Display` text. */
  datatype IoError = IoError(kind: ErrorKind, message: string)

  /** `io::Error::from(io::ErrorKind::UnexpectedEof)`. */
  const UnexpectedEofError := IoError(UnexpectedEof, "unexpected end of file")

  /** A failure that is not the transient would-block signal. */
  predicate IsHard(e: IoError)
  {
    e.kind != WouldBlock
  }
}
