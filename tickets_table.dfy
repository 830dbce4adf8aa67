/** The ticket table component (src/components/tickets/tickets-table.tsx): the
    search box and status filter, the Generate and Send buttons' enabling
    conditions, and the two handlers that update the list after the backend
    has drafted or sent a reply. */
module TicketsTable {
  import opened Common
  import opened Strings
  import opened Tickets
  import opened App

  /** Sender identity written on drafts generated from the table. */
  const OperatorAddress: string := "cesar@sup.com"

  // ---------------------------------------------------------------------------
  // The draft update (`generateResponse`)
  // ---------------------------------------------------------------------------

  /** The message built from a generated reply to `ticket`: a `sent` message
      from the operator, titled "Re: " and the ticket's title, holding the
      reply. */
  function DraftMessage(ticket: Ticket, response: string, msgId: string, now: string): (m: Message)
    ensures m.kind == Sent && m.content == response && m.subject == "Re: " + ticket.title
    ensures m.from == Some(OperatorAddress) && m.fromAddress == OperatorAddress
    ensures m.id == msgId && m.timestamp == now
  {
    Message(msgId, "Re: " + ticket.title, response, Some(OperatorAddress), OperatorAddress, now, Sent)
  }

  /** The ticket with `draft` appended to its conversation, PENDING, and its
      last-message time set; every other field is kept. */
  function WithDraft(t: Ticket, draft: Message, now: string): (r: Ticket)
    ensures r.messages == t.messages + [draft] && r.status == Pending && r.lastMessage == now
    ensures r.(messages := t.messages, status := t.status, lastMessage := t.lastMessage) == t
  {
    t.(messages := t.messages + [draft], status := Pending, lastMessage := now)
  }

  /** The list after a draft for `ticket` was generated: the ticket with the
      same id gains exactly the draft message at the end and becomes PENDING;
      its other fields and all other tickets are kept, in the same order. */
  function DraftUpdate(ts: seq<Ticket>, ticket: Ticket, response: string, msgId: string, now: string): (r: seq<Ticket>)
    ensures |r| == |ts|
    ensures forall i :: 0 <= i < |ts| && ts[i].id != ticket.id ==> r[i] == ts[i]
    ensures forall i :: 0 <= i < |ts| && ts[i].id == ticket.id ==>
              && r[i].messages == ts[i].messages + [DraftMessage(ticket, response, msgId, now)]
              && r[i].status == Pending
              && r[i].lastMessage == now
              && r[i].(messages := ts[i].messages, status := ts[i].status, lastMessage := ts[i].lastMessage) == ts[i]
  {
    var draft := DraftMessage(ticket, response, msgId, now);
    UpdateWhere(ts, ticket.id, (t: Ticket) => WithDraft(t, draft, now))
  }

  // ---------------------------------------------------------------------------
  // The close update (`sendResponse`)
  // ---------------------------------------------------------------------------

  /** The list after a send resolved: the ticket with that id becomes CLOSED,
      with its messages and other fields unchanged; all other tickets are
      kept. */
  function CloseUpdate(ts: seq<Ticket>, id: int): (r: seq<Ticket>)
    ensures |r| == |ts|
    ensures forall i :: 0 <= i < |ts| && ts[i].id != id ==> r[i] == ts[i]
    ensures forall i :: 0 <= i < |ts| && ts[i].id == id ==>
              r[i].status == Closed && r[i].(status := ts[i].status) == ts[i]
  {
    UpdateWhere(ts, id, (t: Ticket) => t.(status := Closed))
  }

  /** Both table updates only append to conversations. */
  lemma TableUpdatesExtend(ts: seq<Ticket>, ticket: Ticket, response: string, msgId: string, now: string)
    ensures Extends(ts, DraftUpdate(ts, ticket, response, msgId, now))
    ensures Extends(ts, CloseUpdate(ts, ticket.id))
  {
  }

  /** An update that sets the status of the tickets with one id to `target`
      and keeps every other status moves no ticket back iff `target` ranks at
      least as high as each status it replaces. */
  lemma {:induction false} AdvancesIffRanked(ts: seq<Ticket>, r: seq<Ticket>, id: int, target: Status)
    requires |r| == |ts|
    requires forall i :: 0 <= i < |ts| ==> r[i].status == if ts[i].id == id then target else ts[i].status
    ensures (forall i :: 0 <= i < |ts| && ts[i].id == id ==> Rank(ts[i].status) <= Rank(target))
            <==> Advances(ts, r)
  {
    if !Advances(ts, r) {
      var i :| 0 <= i < |ts| && Rank(ts[i].status) > Rank(r[i].status);
      assert ts[i].id == id;
    }
  }

  /** Closing never moves a ticket back. */
  lemma CloseAdvances(ts: seq<Ticket>, id: int)
    ensures Advances(ts, CloseUpdate(ts, id))
  {
    var c := CloseUpdate(ts, id);
    forall i | 0 <= i < |ts|
      ensures c[i].status == if ts[i].id == id then Closed else ts[i].status
    {
    }
    AdvancesIffRanked(ts, c, id, Closed);
  }

  /** Drafting never moves a ticket back unless the target was already
      CLOSED; `GenerateGuardAdvances` shows the Generate button rules that
      out. */
  lemma DraftAdvancesIff(ts: seq<Ticket>, ticket: Ticket, response: string, msgId: string, now: string)
    ensures (forall i :: 0 <= i < |ts| && ts[i].id == ticket.id ==> ts[i].status != Closed)
            <==> Advances(ts, DraftUpdate(ts, ticket, response, msgId, now))
  {
    var r := DraftUpdate(ts, ticket, response, msgId, now);
    forall i | 0 <= i < |ts|
      ensures r[i].status == if ts[i].id == ticket.id then Pending else ts[i].status
    {
    }
    AdvancesIffRanked(ts, r, ticket.id, Pending);
  }

  // ---------------------------------------------------------------------------
  // Filtering (`filteredTickets`)
  // ---------------------------------------------------------------------------

  /** `Array.prototype.filter`: every kept ticket survives as often as it
      occurs, and every other ticket is dropped. */
  function Filter(ts: seq<Ticket>, keep: Ticket -> bool): (r: seq<Ticket>)
    ensures |r| <= |ts|
    ensures forall t :: multiset(r)[t] == if keep(t) then multiset(ts)[t] else 0
  {
    if ts == [] then []
    else
      assert ts == [ts[0]] + ts[1..];
      (if keep(ts[0]) then [ts[0]] else []) + Filter(ts[1..], keep)
  }

  /** `a` is `b` with some elements left out and the rest in their order. */
  predicate IsSubsequence(a: seq<Ticket>, b: seq<Ticket>)
    decreases |b|
  {
    if a == [] then true
    else if b == [] then false
    else if a[0] == b[0] then IsSubsequence(a[1..], b[1..])
    else IsSubsequence(a, b[1..])
  }

  lemma {:induction false} SubsequenceSkip(a: seq<Ticket>, x: Ticket, b: seq<Ticket>)
    requires IsSubsequence(a, b)
    ensures IsSubsequence(a, [x] + b)
    decreases |b|, 1
  {
    var xb := [x] + b;
    assert xb[1..] == b;
    if a != [] && a[0] == x {
      assert b != [];
      if a[0] == b[0] {
        SubsequenceSkip(a[1..], b[0], b[1..]);
        assert [b[0]] + b[1..] == b;
      } else {
        SubsequenceDrop(a, b);
      }
    }
  }

  /** Dropping the head of a subsequence keeps it a subsequence. */
  lemma {:induction false} SubsequenceDrop(a: seq<Ticket>, b: seq<Ticket>)
    requires a != [] && IsSubsequence(a, b)
    ensures IsSubsequence(a[1..], b)
    decreases |b|, 0
  {
    if a[0] == b[0] {
      if a[1..] != [] {
        SubsequenceSkip(a[1..], b[0], b[1..]);
        assert [b[0]] + b[1..] == b;
      }
    } else {
      SubsequenceDrop(a, b[1..]);
      if a[1..] != [] {
        SubsequenceSkip(a[1..], b[0], b[1..]);
        assert [b[0]] + b[1..] == b;
      }
    }
  }

  /** Filtering keeps the surviving tickets in their original order. */
  lemma {:induction false} FilterIsSubsequence(ts: seq<Ticket>, keep: Ticket -> bool)
    ensures IsSubsequence(Filter(ts, keep), ts)
  {
    if ts != [] {
      FilterIsSubsequence(ts[1..], keep);
      var rest := Filter(ts[1..], keep);
      if keep(ts[0]) {
        assert ([ts[0]] + rest)[1..] == rest;
      } else {
        assert Filter(ts, keep) == rest;
        SubsequenceSkip(rest, ts[0], ts[1..]);
        assert [ts[0]] + ts[1..] == ts;
      }
    }
  }

  /** A ticket survives the filter iff it was in the list and is kept. */
  lemma {:induction false} FilterMembership(ts: seq<Ticket>, keep: Ticket -> bool, t: Ticket)
    ensures t in Filter(ts, keep) <==> t in ts && keep(t)
  {
    if ts != [] {
      FilterMembership(ts[1..], keep, t);
      assert ts == [ts[0]] + ts[1..];
    }
  }

  /** A filter that keeps everything returns the list itself. */
  lemma {:induction false} FilterKeepsAll(ts: seq<Ticket>, keep: Ticket -> bool)
    requires forall i :: 0 <= i < |ts| ==> keep(ts[i])
    ensures Filter(ts, keep) == ts
  {
    if ts != [] {
      FilterKeepsAll(ts[1..], keep);
    }
  }

  /** Filtering on a status criterion leaves as many tickets as that status
      counts. */
  lemma {:induction false} FilterCountsStatus(ts: seq<Ticket>, keep: Ticket -> bool, s: Status)
    requires forall t :: keep(t) == (t.status == s)
    ensures |Filter(ts, keep)| == CountStatus(ts, s)
  {
    if ts != [] {
      FilterCountsStatus(ts[1..], keep, s);
    }
  }

  /** Two filters in a row keep what both criteria keep. */
  lemma {:induction false} FilterTwice(ts: seq<Ticket>, p: Ticket -> bool, q: Ticket -> bool, pq: Ticket -> bool)
    requires forall t :: pq(t) == (p(t) && q(t))
    ensures Filter(Filter(ts, p), q) == Filter(ts, pq)
  {
    if ts != [] {
      FilterTwice(ts[1..], p, q, pq);
      var rest := Filter(ts[1..], p);
      if p(ts[0]) {
        assert Filter(ts, p) == [ts[0]] + rest;
        assert ([ts[0]] + rest)[1..] == rest;
      } else {
        assert Filter(ts, p) == [] + rest == rest;
      }
    }
  }

  /** The search box: a non-empty query matches, ignoring case, a substring of
      the title, the description, the sender's address or the sender's name. */
  function MatchesSearch(t: Ticket, query: string): (b: bool)
    ensures query == "" ==> b
    ensures query != "" ==>
      (b <==>
        var q := Lower(query);
        (exists i :: OccursAt(Lower(t.title), q, i)) || (exists i :: OccursAt(Lower(t.description), q, i))
        || (exists i :: OccursAt(Lower(t.sender.email), q, i)) || (exists i :: OccursAt(Lower(t.sender.name), q, i)))
  {
    var q := Lower(query);
    ContainsIff(Lower(t.title), q);
    ContainsIff(Lower(t.description), q);
    ContainsIff(Lower(t.sender.email), q);
    ContainsIff(Lower(t.sender.name), q);
    query == "" ||
    Contains(Lower(t.title), q) || Contains(Lower(t.description), q)
    || Contains(Lower(t.sender.email), q) || Contains(Lower(t.sender.name), q)
  }

  /** The status filter: only the three status identifiers hide anything, each
      hiding exactly the tickets of other statuses; "all" and an identifier it
      does not recognise keep everything. */
  function MatchesFilter(t: Ticket, filter: string): (b: bool)
    ensures !b <==> (filter == "needs-supervision" && t.status != New)
                    || (filter == "auto-answered" && t.status != Pending)
                    || (filter == "answered" && t.status != Closed)
  {
    if filter == "all" then true
    else if filter == "needs-supervision" then t.status == New
    else if filter == "auto-answered" then t.status == Pending
    else if filter == "answered" then t.status == Closed
    else true
  }

  /** The rows the table shows: each ticket passing both the search and the
      status filter, as often as it is in the list, and no other. */
  function FilteredTickets(ts: seq<Ticket>, query: string, filter: string): (r: seq<Ticket>)
    ensures |r| <= |ts|
    ensures forall t :: multiset(r)[t] ==
              if MatchesSearch(t, query) && MatchesFilter(t, filter) then multiset(ts)[t] else 0
  {
    Filter(Filter(ts, (t: Ticket) => MatchesSearch(t, query)), (t: Ticket) => MatchesFilter(t, filter))
  }

  /** What the table shows is an order-preserving selection of the list, and a
      ticket is shown iff it is in the list and passes both the search and the
      status filter. */
  lemma FilteredTicketsSpec(ts: seq<Ticket>, query: string, filter: string)
    ensures IsSubsequence(FilteredTickets(ts, query, filter), ts)
    ensures forall t :: t in FilteredTickets(ts, query, filter) <==>
              t in ts && MatchesSearch(t, query) && MatchesFilter(t, filter)
  {
    var search := (t: Ticket) => MatchesSearch(t, query);
    var status := (t: Ticket) => MatchesFilter(t, filter);
    var both := (t: Ticket) => MatchesSearch(t, query) && MatchesFilter(t, filter);
    FilterTwice(ts, search, status, both);
    FilterIsSubsequence(ts, both);
    forall t ensures t in FilteredTickets(ts, query, filter) <==> t in ts && both(t) {
      FilterMembership(ts, both, t);
    }
  }

  /** With no query and the filter on "all", or on an unknown identifier, the
      table shows the whole list. */
  lemma FilteredTicketsIdentity(ts: seq<Ticket>, filter: string)
    requires filter !in {"needs-supervision", "auto-answered", "answered"}
    ensures FilteredTickets(ts, "", filter) == ts
  {
    FilterKeepsAll(ts, (t: Ticket) => MatchesSearch(t, ""));
    FilterKeepsAll(ts, (t: Ticket) => MatchesFilter(t, filter));
  }

  /** Each named filter shows exactly as many tickets as its count on the
      filter bar, and "all" as many as the "all" count. */
  lemma FilterAgreesWithCounts(ts: seq<Ticket>)
    ensures |FilteredTickets(ts, "", "all")| == GetCounts(ts).all
    ensures |FilteredTickets(ts, "", "needs-supervision")| == GetCounts(ts).needsSupervision
    ensures |FilteredTickets(ts, "", "auto-answered")| == GetCounts(ts).autoAnswered
    ensures |FilteredTickets(ts, "", "answered")| == GetCounts(ts).answered
  {
    FilteredTicketsIdentity(ts, "all");
    FilterKeepsAll(ts, (t: Ticket) => MatchesSearch(t, ""));
    FilterCountsStatus(ts, (t: Ticket) => MatchesFilter(t, "needs-supervision"), New);
    FilterCountsStatus(ts, (t: Ticket) => MatchesFilter(t, "auto-answered"), Pending);
    FilterCountsStatus(ts, (t: Ticket) => MatchesFilter(t, "answered"), Closed);
  }

  /** The search ignores the case of the query, and a non-empty query matches
      exactly when its lower-cased form occurs in one of the four fields. */
  lemma SearchMeaning(t: Ticket, query: string)
    ensures MatchesSearch(t, query) == MatchesSearch(t, Lower(query))
    ensures query != "" ==>
      (MatchesSearch(t, query) <==>
        var q := Lower(query);
        (exists i :: OccursAt(Lower(t.title), q, i)) || (exists i :: OccursAt(Lower(t.description), q, i))
        || (exists i :: OccursAt(Lower(t.sender.email), q, i)) || (exists i :: OccursAt(Lower(t.sender.name), q, i)))
  {
    LowerIdempotent(query);
    var q := Lower(query);
    ContainsIff(Lower(t.title), q);
    ContainsIff(Lower(t.description), q);
    ContainsIff(Lower(t.sender.email), q);
    ContainsIff(Lower(t.sender.name), q);
  }

  // ---------------------------------------------------------------------------
  // Button guards
  // ---------------------------------------------------------------------------

  /** The Generate button is disabled while generating, while loading, and on
      a CLOSED ticket. */
  function GenerateDisabled(selected: Option<Ticket>, isGenerating: bool, isLoading: bool): (d: bool)
    ensures !d <==> !isGenerating && !isLoading && !(selected.Some? && selected.value.status == Closed)
  {
    isGenerating || (selected.Some? && selected.value.status == Closed) || isLoading
  }

  /** A draft that the Generate button lets through, for the list's own
      element with a unique id, never moves a ticket back. */
  lemma GenerateGuardAdvances(ts: seq<Ticket>, i: nat, isGenerating: bool, isLoading: bool,
                              response: string, msgId: string, now: string)
    requires i < |ts|
    requires forall j :: 0 <= j < |ts| && ts[j].id == ts[i].id ==> j == i
    requires !GenerateDisabled(Some(ts[i]), isGenerating, isLoading)
    ensures Advances(ts, DraftUpdate(ts, ts[i], response, msgId, now))
  {
    DraftAdvancesIff(ts, ts[i], response, msgId, now);
  }

  /** The Send button's `disabled` expression, evaluated left to right. `None`
      means evaluating it throws: the selected ticket has no messages, so its
      "last message" is undefined. With no ticket selected the optional chain
      yields undefined, which is not 'sent', so the button is disabled. */
  function SendDisabled(selected: Option<Ticket>, isSending: bool, isLoading: bool): (d: Option<bool>)
    ensures isSending || selected.None? || selected.value.status == Closed ==> d == Some(true)
    ensures d == Some(false) ==> !isLoading
  {
    if isSending then Some(true)
    else if selected.Some? && selected.value.status == Closed then Some(true)
    else if selected.None? then Some(true)
    else if |selected.value.messages| == 0 then None
    else if selected.value.messages[|selected.value.messages| - 1].kind != Sent then Some(true)
    else Some(isLoading)
  }

  /** Send is enabled exactly when a ticket is selected, it is not CLOSED, its
      last message is a sent one, and nothing is sending or loading. */
  lemma SendEnabledIff(selected: Option<Ticket>, isSending: bool, isLoading: bool)
    ensures SendDisabled(selected, isSending, isLoading) == Some(false) <==>
      && selected.Some?
      && selected.value.status != Closed
      && |selected.value.messages| > 0
      && selected.value.messages[|selected.value.messages| - 1].kind == Sent
      && !isSending && !isLoading
  {
  }

  /** The disabled expression throws only when a ticket with no messages is
      selected, nothing is sending, and the ticket is not CLOSED. */
  lemma SendDisabledThrowsIff(selected: Option<Ticket>, isSending: bool, isLoading: bool)
    ensures SendDisabled(selected, isSending, isLoading).None? <==>
      !isSending && selected.Some? && selected.value.status != Closed && |selected.value.messages| == 0
  {
  }

  // ---------------------------------------------------------------------------
  // Status consistency across the dashboard's updates
  // ---------------------------------------------------------------------------

  /** A NEW ticket has not been answered yet: its last message was received. */
  predicate NewMeansUnanswered(ts: seq<Ticket>) {
    forall i :: 0 <= i < |ts| && ts[i].status == New ==>
      |ts[i].messages| > 0 && ts[i].messages[|ts[i].messages| - 1].kind == Received
  }

  /** Every update of the list keeps NEW tickets unanswered. */
  lemma UpdatesKeepNewUnanswered(ts: seq<Ticket>, ticket: Ticket, response: string, msgId: string, now: string,
                                message: string)
    requires NewMeansUnanswered(ts)
    ensures NewMeansUnanswered(DraftUpdate(ts, ticket, response, msgId, now))
    ensures NewMeansUnanswered(CloseUpdate(ts, ticket.id))
    ensures NewMeansUnanswered(ProcessUpdate(ts, ticket.id, message, response, msgId, now))
  {
    var d := DraftUpdate(ts, ticket, response, msgId, now);
    forall i | 0 <= i < |d| && d[i].status == New
      ensures |d[i].messages| > 0 && d[i].messages[|d[i].messages| - 1].kind == Received
    {
      assert ts[i].id != ticket.id;
    }
    var c := CloseUpdate(ts, ticket.id);
    forall i | 0 <= i < |c| && c[i].status == New
      ensures |c[i].messages| > 0 && c[i].messages[|c[i].messages| - 1].kind == Received
    {
      assert ts[i].id != ticket.id;
    }
    var p := ProcessUpdate(ts, ticket.id, message, response, msgId, now);
    forall i | 0 <= i < |p| && p[i].status == New
      ensures |p[i].messages| > 0 && p[i].messages[|p[i].messages| - 1].kind == Received
    {
      assert ts[i].id != ticket.id || message != SuccessMessage;
    }
  }

  /** When the open ticket is the list's own element, Send is never enabled
      for a NEW ticket on such a list. */
  lemma NoSendFromNew(ts: seq<Ticket>, i: nat, isSending: bool, isLoading: bool)
    requires NewMeansUnanswered(ts) && i < |ts|
    requires SendDisabled(Some(ts[i]), isSending, isLoading) == Some(false)
    ensures ts[i].status == Open || ts[i].status == Pending
  {
  }

  /** The open ticket is a copy that a refresh does not update. A copy that
      was drafted (PENDING, last message sent) enables Send, and closing by its
      id then closes whatever ticket has that id in the list now, even a NEW
      one whose only reply is still unanswered: every backend ticket has id 1. */
  lemma StaleSelectionClosesNew(ts: seq<Ticket>, i: nat, stale: Ticket)
    requires i < |ts| && ts[i].id == stale.id && ts[i].status == New && NewMeansUnanswered(ts)
    requires stale.status == Pending && |stale.messages| > 0 && stale.messages[|stale.messages| - 1].kind == Sent
    ensures SendDisabled(Some(stale), false, false) == Some(false)
    ensures var c := CloseUpdate(ts, stale.id);
      && c[i].status == Closed
      && c[i].messages == ts[i].messages
      && c[i].messages[|c[i].messages| - 1].kind == Received
  {
  }

  // ---------------------------------------------------------------------------
  // The stateful component
  // ---------------------------------------------------------------------------

  /** What the generate-response request produced: a failure (non-ok status or
      a rejected fetch) or the drafted reply. */
  datatype GenerateReply = GenerateFailed | Generated(response: string)

  /** The table's own state; the ticket list belongs to the enclosing `app`,
      which the table writes through `setTickets` and `onProcessTicket`. */
  class TicketsTableView {
    const app: AppState
    var selected: Option<Ticket>
    var isGeneratingResponse: bool
    var isSending: bool

    constructor (app: AppState)
      ensures this.app == app && selected == None && !isGeneratingResponse && !isSending
    {
      this.app := app;
      selected, isGeneratingResponse, isSending := None, false, false;
    }

    /** Clicking a row opens a copy of that ticket. */
    method Open(t: Ticket)
      modifies this
      ensures selected == Some(t)
      ensures isGeneratingResponse == old(isGeneratingResponse) && isSending == old(isSending)
    {
      selected := Some(t);
    }

    /** Closing the dialog forgets the open ticket. */
    method Dismiss()
      modifies this
      ensures selected == None
      ensures isGeneratingResponse == old(isGeneratingResponse) && isSending == old(isSending)
    {
      selected := None;
    }

    /** `generateResponse`: on a reply, the list gets the draft and so does the
        open ticket (whichever it is); on failure nothing changes but the
        toast. The busy flag is reset in every case. */
    method GenerateResponse(ticket: Ticket, reply: GenerateReply, msgId: string, now: string)
      modifies this, app`tickets
      ensures !isGeneratingResponse && isSending == old(isSending)
      ensures reply.GenerateFailed? ==> app.tickets == old(app.tickets) && selected == old(selected)
      ensures reply.Generated? ==>
        && app.tickets == DraftUpdate(old(app.tickets), ticket, reply.response, msgId, now)
        && selected == (if old(selected).Some?
                        then Some(WithDraft(old(selected).value, DraftMessage(ticket, reply.response, msgId, now), now))
                        else None)
    {
      isGeneratingResponse := true;
      match reply {
        case GenerateFailed =>
        case Generated(response) =>
          var draft := DraftMessage(ticket, response, msgId, now);
          app.tickets := DraftUpdate(app.tickets, ticket, response, msgId, now);
          if selected.Some? {
            selected := Some(WithDraft(selected.value, draft, now));
          }
      }
      isGeneratingResponse := false;
    }

    /** `sendResponse`: the last message's content is handed to
        `onProcessTicket`. If that resolves, whatever message the backend
        returned, the ticket is CLOSED in the list captured when the handler
        ran, which also replaces the reply `onProcessTicket` may just have
        appended. If it rejects, or the ticket has no messages, the list is
        left as it was. */
    method SendResponse(ticket: Ticket, reply: SendReply, msgId: string, now: string)
      modifies this, app
      ensures !isSending && isGeneratingResponse == old(isGeneratingResponse)
      ensures app.isLoading == old(app.isLoading)
      ensures |ticket.messages| == 0 ==>
        app.tickets == old(app.tickets) && app.error == old(app.error) && selected == old(selected)
      ensures |ticket.messages| > 0 && reply.SendFailed? ==>
        && app.tickets == old(app.tickets)
        && app.error == Some(ErrorMessage(reply.thrown, ProcessError))
        && selected == old(selected)
      ensures |ticket.messages| > 0 && reply.Replied? ==>
        && app.tickets == CloseUpdate(old(app.tickets), ticket.id)
        && app.error == old(app.error)
        && selected == (if old(selected).Some? then Some(old(selected).value.(status := Closed)) else None)
    {
      isSending := true;
      var captured := app.tickets;
      if |ticket.messages| > 0 {
        var last := ticket.messages[|ticket.messages| - 1];
        var rejected := app.ProcessTicket(ticket.id, last.content, ticket.sender.email, reply, msgId, now);
        if !rejected {
          app.tickets := CloseUpdate(captured, ticket.id);
          if selected.Some? {
            selected := Some(selected.value.(status := Closed));
          }
        }
      }
      isSending := false;
    }
  }
}
