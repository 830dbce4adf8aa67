/** The ticket data model shared by the dashboard and the backend. */
module Tickets {
  import opened Common

  /** The four-state status enumeration; the dashboard styles all four. */
  datatype Status = New | Open | Pending | Closed

  datatype MessageType = Received | Sent

  /** One turn of a conversation. Messages built in the browser fill both
      sender-identity keys; the backend fills only `from_address`, so `from`
      is absent on what it sends. */
  datatype Message = Message(
    id: string,
    subject: string,
    content: string,
    from: Option<string>,
    fromAddress: string,
    timestamp: string,
    kind: MessageType)

  datatype Sender = Sender(email: string, name: string)

  datatype Ticket = Ticket(
    id: int,
    title: string,
    description: string,
    origin: string,
    messages: seq<Message>,
    created: string,
    lastMessage: string,
    sender: Sender,
    status: Status)

  /** `tickets.map(t => t.id === id ? f(t) : t)`: the shape of every update
      the dashboard applies to one ticket of its list. */
  function UpdateWhere(ts: seq<Ticket>, id: int, f: Ticket -> Ticket): (r: seq<Ticket>)
    ensures |r| == |ts|
    ensures forall i :: 0 <= i < |ts| ==> r[i] == (if ts[i].id == id then f(ts[i]) else ts[i])
  {
    if ts == [] then []
    else [if ts[0].id == id then f(ts[0]) else ts[0]] + UpdateWhere(ts[1..], id, f)
  }

  /** How far along the reply cycle a status is: NEW and OPEN await a draft,
      PENDING holds a draft or a reply, CLOSED has been answered. */
  function Rank(s: Status): nat {
    match s
    case New => 0
    case Open => 0
    case Pending => 1
    case Closed => 2
  }

  /** `after` is `before` with messages only appended: same tickets in the same
      order, identities and creation times untouched, each old conversation a
      prefix of the new one. */
  predicate Extends(before: seq<Ticket>, after: seq<Ticket>) {
    |before| == |after|
    && forall i :: 0 <= i < |before| ==>
         && after[i].id == before[i].id
         && after[i].sender == before[i].sender
         && after[i].created == before[i].created
         && before[i].messages <= after[i].messages
  }

  /** No ticket moves back along the reply cycle. */
  predicate Advances(before: seq<Ticket>, after: seq<Ticket>)
    requires |before| == |after|
  {
    forall i :: 0 <= i < |before| ==> Rank(before[i].status) <= Rank(after[i].status)
  }
}
