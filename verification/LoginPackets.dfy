// The packets of the login protocol. Field order and account names are not
// modelled.
module LoginPackets {

  const UNKNOWN_ERROR: int := -1
  const ALREADY_ONLINE: int := -2

  // Where a verdict goes back to: the login server's session at the master and
  // the client's session at the login server. `request` numbers the requests
  // the master received; it is history and not on the wire.
  datatype Ticket = Ticket(login: nat, client: nat, request: nat)

  datatype Packet =
    | WillLogin(gate: nat, ticket: Ticket, user: nat)
    | WillLoginRes(result: int, ticket: Ticket, user: nat, key: string)
    | Verify(result: int, ticket: Ticket, user: nat, key: string)
    | Report(client: nat, user: nat)
    | Confirm(gate: nat, result: int, user: nat, client: nat)
    | Offline(user: nat)
}
