/** What several components share. */
module Numbers {

  function One(b: bool): nat { if b then 1 else 0 }

  function Min(x: nat, y: nat): nat { if x < y then x else y }

  function Max(x: int, y: int): int { if x < y then y else x }
}

/** The state of a connection (TcpConnection.h). */
module ConnStates {

  datatype ConnState = Connecting | Connected | Disconnecting | Disconnected

  predicate Up(state: ConnState) { state.Connected? || state.Disconnecting? }
}
