/**
 The relay's wire message (relay/internal/pb/wire.go) and the Option type the
 other modules share.
 */
module Wire {

  datatype Option<+T> = None | Some(value: T)

  datatype Role = RoleUnspecified | RoleProvider | RoleConnector | RoleBoth {
    predicate IsProvider() { RoleProvider? || RoleBoth? }
    predicate IsConnector() { RoleConnector? || RoleBoth? }
  }

  datatype Op =
    | OpUnspecified | OpUpsert | OpDelete
    | OpTableCreate | OpTableDelete | OpColumnAdd | OpColumnDelete
    | OpQuotaExceeded

  // The payload is opaque JSON text: the relay never looks inside it here.
  datatype Message = Message(
    seqNo: int, deviceID: string, userID: string, ns: string,
    role: Role, op: Op, table: string, payload: string, ts: int)

  /** The capacity of a connection's send channel. */
  const SEND_BUFFER: nat := 64
}
