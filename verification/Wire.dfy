/**
 Identifiers, limits and packets shared by the Quickshare client and server.
 A packet is the tagged union of shared/msg.h; the fields that no handler reads are left out.
 */
module Wire {

  newtype byte = x: int | 0 <= x < 256

  /** `time_t` of the accept on the server; 0 stands for "nobody". */
  type ClientId = nat
  /** Row id in the server's Transfers table; 0 stands for "not assigned". */
  type TransferId = nat
  /** The number a host gives its own request until the server has answered. */
  type LocalId = nat

  const TRANSFER_CLIENTS_MAX := 6
  const SIM_TRANSFERS_MAX := 6
  const FILE_BUFFER_SIZE := 3072
  const PACKET_MAX_SIZE := 1440
  const PACKET_HDR_SIZE := 8
  /** What is left of a packet behind its header, the transfer id and the byte count. */
  const DATA_BYTES_MAX := 1416

  /** The recipient array of a header: six entries, ended early by a 0. */
  type ToList = s: seq<ClientId> | |s| == TRANSFER_CLIENTS_MAX witness [0, 0, 0, 0, 0, 0]

  const NO_ONE: ToList := [0, 0, 0, 0, 0, 0]

  datatype Hdr = Hdr(tid: TransferId, from: ClientId, to: ToList)

  const ZERO_HDR := Hdr(0, 0, NO_ONE)

  datatype Request = Request(hdr: Hdr, local: LocalId, name: string, size: nat)

  datatype User = User(id: ClientId, name: string)

  datatype Packet =
    | ServerOk
    | ServerDeny
    | ClientIntro(clientName: string, sessionName: string, session: nat)
    | NewUsers(users: seq<User>)
    | DelUser(user: User)
    | TransferValid(req: Request)
    | TransferInvalid(req: Request)
    | TransferRequest(req: Request)
    | TransferReply(tid: TransferId, from: ClientId, accept: bool)
    | TransferData(tid: TransferId, bytes: seq<byte>)
    | TransferCancel(tid: TransferId, from: ClientId)
    | TransferComplete(tid: TransferId)

  /** How many recipients a list names: the entries before its first 0. */
  function Len(to: seq<ClientId>): (n: nat)
    ensures n <= |to|
    ensures forall i | 0 <= i < n :: to[i] != 0
    ensures n < |to| ==> to[n] == 0
  {
    if to == [] || to[0] == 0 then 0 else 1 + Len(to[1..])
  }

  function Recipients(to: seq<ClientId>): seq<ClientId> {
    to[..Len(to)]
  }

  /** A list the send button can produce: nobody twice, not the sender itself. */
  predicate ProperList(to: ToList, self: ClientId) {
    && (forall i, j | 0 <= i < j < Len(to) :: to[i] != to[j])
    && self !in Recipients(to)
  }
}
