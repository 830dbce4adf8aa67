/** The dashboard's top-level state (src/App.tsx): the ticket list, the error
    banner and the loading flag; the refresh cycle that replaces the list, the
    bootstrap retry loop, the list update applied after a reply is sent, and the
    per-status counts shown on the filter bar. */
module App {
  import opened Common
  import opened Strings
  import opened Tickets

  /** The backend's acknowledgement of a processed send. */
  const SuccessMessage: string := "Email processed successfully"
  /** Banner text when the health check fails. */
  const ServiceUnavailable: string := "El servicio de correo no está disponible"
  /** Banner text when a fetch throws something that is not an Error. */
  const UnknownLoadError: string := "Error desconocido al cargar los correos"
  /** Banner text when a send throws something that is not an Error. */
  const ProcessError: string := "Error al procesar el ticket"
  /** Banner text after the last bootstrap attempt fails. */
  const RetryExhausted: string := "No se pudo conectar después de varios intentos"
  const SystemAddress: string := "system@example.com"
  const MaxAttempts: nat := 3

  // ---------------------------------------------------------------------------
  // Per-status counts (`getCounts`)
  // ---------------------------------------------------------------------------

  datatype Counts = Counts(all: nat, needsSupervision: nat, autoAnswered: nat, answered: nat)

  /** Number of tickets with status `s`. */
  function CountStatus(ts: seq<Ticket>, s: Status): (n: nat)
    ensures n <= |ts|
  {
    if ts == [] then 0
    else (if ts[0].status == s then 1 else 0) + CountStatus(ts[1..], s)
  }

  function GetCounts(ts: seq<Ticket>): (c: Counts)
    ensures c.all == |ts|
    ensures c.needsSupervision == CountStatus(ts, New)
    ensures c.autoAnswered == CountStatus(ts, Pending)
    ensures c.answered == CountStatus(ts, Closed)
  {
    Counts(|ts|, CountStatus(ts, New), CountStatus(ts, Pending), CountStatus(ts, Closed))
  }

  /** Every ticket sits in exactly one status, so the four status counts add
      up to the list length. */
  lemma {:induction false} CountsPartition(ts: seq<Ticket>)
    ensures CountStatus(ts, New) + CountStatus(ts, Open) + CountStatus(ts, Pending)
            + CountStatus(ts, Closed) == |ts|
  {
    if ts != [] {
      CountsPartition(ts[1..]);
    }
  }

  /** A status count is zero exactly when no ticket has that status. */
  lemma {:induction false} CountZeroIff(ts: seq<Ticket>, s: Status)
    ensures CountStatus(ts, s) == 0 <==> forall i :: 0 <= i < |ts| ==> ts[i].status != s
  {
    if ts != [] {
      CountZeroIff(ts[1..], s);
      assert forall i :: 1 <= i < |ts| ==> ts[i] == ts[1..][i - 1];
    }
  }

  /** The three named buckets never exceed the total, and match it exactly
      when no ticket is OPEN (OPEN tickets fall in no bucket). */
  lemma BucketsBound(ts: seq<Ticket>)
    ensures var c := GetCounts(ts);
      c.needsSupervision + c.autoAnswered + c.answered <= c.all
      && (c.needsSupervision + c.autoAnswered + c.answered == c.all
          <==> forall i :: 0 <= i < |ts| ==> ts[i].status != Open)
  {
    CountsPartition(ts);
    CountZeroIff(ts, Open);
  }

  // ---------------------------------------------------------------------------
  // The list update after a send (`processTicket`'s functional update)
  // ---------------------------------------------------------------------------

  /** The message recorded for the backend's reply: a `sent` message from the
      system address, titled "Re: Ticket #" and the id, holding the reply. */
  function ReplyMessage(ticketId: int, response: string, msgId: string, now: string): (m: Message)
    ensures m.kind == Sent && m.content == response && m.subject == "Re: Ticket #" + IntToDecimal(ticketId)
    ensures m.from == Some(SystemAddress) && m.fromAddress == SystemAddress
    ensures m.id == msgId && m.timestamp == now
  {
    Message(msgId, "Re: Ticket #" + IntToDecimal(ticketId), response,
            Some(SystemAddress), SystemAddress, now, Sent)
  }

  /** Only the exact success string updates the list: the reply is appended to
      the matching ticket, which becomes PENDING; every other ticket, and every
      other field, is kept. */
  function ProcessUpdate(ts: seq<Ticket>, ticketId: int, message: string, response: string,
                         msgId: string, now: string): (r: seq<Ticket>)
    ensures message != SuccessMessage ==> r == ts
    ensures |r| == |ts|
    ensures forall i :: 0 <= i < |ts| && (ts[i].id != ticketId || message != SuccessMessage) ==> r[i] == ts[i]
    ensures message == SuccessMessage ==> forall i :: 0 <= i < |ts| && ts[i].id == ticketId ==>
              && r[i].messages == ts[i].messages + [ReplyMessage(ticketId, response, msgId, now)]
              && r[i].status == Pending
              && r[i].lastMessage == now
              && r[i].(messages := ts[i].messages, status := ts[i].status, lastMessage := ts[i].lastMessage) == ts[i]
  {
    if message == SuccessMessage then
      UpdateWhere(ts, ticketId, (t: Ticket) => t.(status := Pending,
                                        messages := t.messages + [ReplyMessage(ticketId, response, msgId, now)],
                                        lastMessage := now))
    else ts
  }

  /** The update only appends: the list keeps its shape and every conversation
      keeps its earlier messages. */
  lemma ProcessUpdateExtends(ts: seq<Ticket>, ticketId: int, message: string, response: string,
                             msgId: string, now: string)
    ensures Extends(ts, ProcessUpdate(ts, ticketId, message, response, msgId, now))
  {
  }

  // ---------------------------------------------------------------------------
  // Refresh (`refreshEmails`)
  // ---------------------------------------------------------------------------

  /** What the backend answers for one refresh: whether the health check
      passed, and what fetching the ticket list produced. */
  datatype FetchReply = Fetched(tickets: seq<Ticket>) | FetchFailed(thrown: Thrown)
  datatype RefreshInput = RefreshInput(available: bool, fetch: FetchReply)

  datatype Snapshot = Snapshot(tickets: seq<Ticket>, error: Option<string>)

  /** The list and banner after one refresh started from list `ts`. */
  function Refreshed(ts: seq<Ticket>, input: RefreshInput): (s: Snapshot)
    ensures input.available && input.fetch.Fetched? ==> s == Snapshot(input.fetch.tickets, None)
    ensures !input.available ==> s == Snapshot(ts, Some(ServiceUnavailable))
    ensures input.available && input.fetch.FetchFailed? ==>
              s == Snapshot(ts, Some(ErrorMessage(input.fetch.thrown, UnknownLoadError)))
  {
    if !input.available then Snapshot(ts, Some(ServiceUnavailable))
    else match input.fetch
      case Fetched(loaded) => Snapshot(loaded, None)
      case FetchFailed(t) => Snapshot(ts, Some(ErrorMessage(t, UnknownLoadError)))
  }

  /** A refresh replaces rather than merges, so repeating it against an
      unchanged backend changes nothing more. */
  lemma RefreshIdempotent(ts: seq<Ticket>, input: RefreshInput)
    ensures Refreshed(Refreshed(ts, input).tickets, input) == Refreshed(ts, input)
  {
  }

  /** The result of a successful refresh does not depend on what was shown
      before: an empty backend gives an empty list and an "all" count of 0. */
  lemma RefreshForgetsPrevious(ts: seq<Ticket>, us: seq<Ticket>, loaded: seq<Ticket>)
    ensures Refreshed(ts, RefreshInput(true, Fetched(loaded))) == Refreshed(us, RefreshInput(true, Fetched(loaded)))
    ensures GetCounts(Refreshed(ts, RefreshInput(true, Fetched([]))).tickets).all == 0
  {
  }

  // ---------------------------------------------------------------------------
  // The bootstrap retry loop (`loadEmailsWithRetry`)
  // ---------------------------------------------------------------------------

  datatype RetryOutcome = RetryOutcome(attempts: nat, sleeps: nat, exhausted: bool)

  /** The schedule of a retry loop with `retries` attempts left, where the
      k-th attempt rejects iff `rejects[k]` (the schedule ends where the
      oracle does). It never exceeds its retries nor sleeps more often than it
      attempts, and exhaustion means every retry was used with a sleep between
      each pair. */
  function RetrySchedule(rejects: seq<bool>, retries: nat): (o: RetryOutcome)
    ensures o.attempts <= retries && o.sleeps <= o.attempts
    ensures o.attempts == 0 ==> o.sleeps == 0 && !o.exhausted
    ensures o.exhausted ==> o.attempts == retries && o.sleeps == retries - 1
    decreases retries
  {
    if retries == 0 || rejects == [] then RetryOutcome(0, 0, false)
    else if !rejects[0] then RetryOutcome(1, 0, false)
    else if retries == 1 then RetryOutcome(1, 0, true)
    else
      var rest := RetrySchedule(rejects[1..], retries - 1);
      RetryOutcome(rest.attempts + 1, rest.sleeps + 1, rest.exhausted)
  }

  /** The loop stops at the first attempt that resolves, after sleeping once
      between each pair of attempts. */
  lemma {:induction false} RetryStopsAtFirstSuccess(rejects: seq<bool>, retries: nat, a: nat)
    requires 1 <= a <= retries && a <= |rejects|
    requires forall k :: 0 <= k < a - 1 ==> rejects[k]
    requires !rejects[a - 1]
    ensures RetrySchedule(rejects, retries) == RetryOutcome(a, a - 1, false)
    decreases retries
  {
    if a > 1 {
      RetryStopsAtFirstSuccess(rejects[1..], retries - 1, a - 1);
    }
  }

  /** When every attempt rejects, the loop makes exactly `retries` attempts,
      sleeps between them but not after the last, and reports exhaustion. */
  lemma {:induction false} RetryExhaustsAfterAllFail(rejects: seq<bool>, retries: nat)
    requires 1 <= retries <= |rejects|
    requires forall k :: 0 <= k < retries ==> rejects[k]
    ensures RetrySchedule(rejects, retries) == RetryOutcome(retries, retries - 1, true)
    decreases retries
  {
    if retries > 1 {
      RetryExhaustsAfterAllFail(rejects[1..], retries - 1);
    }
  }

  /** Exhaustion happens only when the first `MaxAttempts` attempts all
      reject; never more than `MaxAttempts` attempts are made. */
  lemma {:induction false} RetryBounds(rejects: seq<bool>, retries: nat)
    requires retries <= |rejects|
    ensures RetrySchedule(rejects, retries).attempts <= retries
    ensures retries > 0 ==> RetrySchedule(rejects, retries).attempts >= 1
    ensures RetrySchedule(rejects, retries).exhausted <==>
              retries > 0 && forall k :: 0 <= k < retries ==> rejects[k]
    decreases retries
  {
    if retries > 0 && rejects[0] && retries > 1 {
      RetryBounds(rejects[1..], retries - 1);
      assert forall k :: 1 <= k < retries ==> rejects[1..][k - 1] == rejects[k];
    }
  }

  /** `refreshEmails` catches everything and never rejects, so the bootstrap
      loop always stops after its first attempt, without sleeping and without
      the terminal banner. */
  lemma BootstrapMakesOneAttempt(rejects: seq<bool>)
    requires |rejects| == MaxAttempts && !rejects[0]
    ensures RetrySchedule(rejects, MaxAttempts) == RetryOutcome(1, 0, false)
  {
    RetryStopsAtFirstSuccess(rejects, MaxAttempts, 1);
  }

  /** The retry loop, over an oracle telling whether the k-th awaited refresh
      rejects: counts its attempts and sleeps, and raises the terminal banner
      only when the third attempt fails too. */
  method LoadEmailsWithRetry(rejects: seq<bool>) returns (attempts: nat, sleeps: nat, terminalError: Option<string>)
    requires |rejects| == MaxAttempts
    ensures RetryOutcome(attempts, sleeps, terminalError.Some?) == RetrySchedule(rejects, MaxAttempts)
    ensures terminalError.Some? ==> terminalError.value == RetryExhausted
    ensures 1 <= attempts <= MaxAttempts
  {
    var retries: nat := MaxAttempts;
    attempts, sleeps, terminalError := 0, 0, None;
    while retries > 0
      invariant retries <= MaxAttempts && attempts == MaxAttempts - retries
      invariant forall k :: 0 <= k < attempts ==> rejects[k]
      invariant retries > 0 ==> sleeps == attempts && terminalError == None
      invariant retries == 0 ==> sleeps == attempts - 1 && terminalError == Some(RetryExhausted)
    {
      var rejected := rejects[attempts];
      attempts := attempts + 1;
      if !rejected {
        RetryStopsAtFirstSuccess(rejects, MaxAttempts, attempts);
        return;
      }
      retries := retries - 1;
      if retries == 0 {
        terminalError := Some(RetryExhausted);
      } else {
        sleeps := sleeps + 1;
      }
    }
    RetryExhaustsAfterAllFail(rejects, MaxAttempts);
  }

  // ---------------------------------------------------------------------------
  // The stateful component
  // ---------------------------------------------------------------------------

  /** What `sendEmail` produced: a rejection, or the backend's JSON body. */
  datatype SendReply = SendFailed(thrown: Thrown) | Replied(message: string, response: string)

  class AppState {
    var tickets: seq<Ticket>
    var error: Option<string>
    var isLoading: bool

    constructor ()
      ensures tickets == [] && error == None && !isLoading
    {
      tickets, error, isLoading := [], None, false;
    }

    /** One refresh cycle: the banner is cleared, the health check is consulted,
        the list is replaced on success and the banner set on failure; the
        loading flag ends false and the returned promise never rejects. */
    method RefreshEmails(input: RefreshInput) returns (rejected: bool)
      modifies this
      ensures Snapshot(tickets, error) == Refreshed(old(tickets), input)
      ensures !isLoading && !rejected
    {
      isLoading := true;
      error := None;
      if !input.available {
        error := Some(ServiceUnavailable);
      } else {
        match input.fetch
        case Fetched(loaded) =>
          tickets := loaded;
        case FetchFailed(t) =>
          error := Some(ErrorMessage(t, UnknownLoadError));
      }
      isLoading := false;
      rejected := false;
    }

    /** `processTicket`: a failed send sets the banner and rejects with the list
        untouched; a reply with any message resolves, and only the success
        string changes the list. */
    method ProcessTicket(ticketId: int, content: string, recipient: string, reply: SendReply,
                         msgId: string, now: string) returns (rejected: bool)
      modifies this
      ensures rejected <==> reply.SendFailed?
      ensures isLoading == old(isLoading)
      ensures reply.SendFailed? ==>
                tickets == old(tickets) && error == Some(ErrorMessage(reply.thrown, ProcessError))
      ensures reply.Replied? ==>
                error == old(error)
                && tickets == ProcessUpdate(old(tickets), ticketId, reply.message, reply.response, msgId, now)
    {
      match reply
      case SendFailed(t) =>
        error := Some(ErrorMessage(t, ProcessError));
        rejected := true;
      case Replied(message, response) =>
        if message == SuccessMessage {
          tickets := ProcessUpdate(tickets, ticketId, message, response, msgId, now);
        }
        rejected := false;
    }
  }
}
