/** How the backend's answers reach the dashboard: the request wrappers of
    src/lib/email-service.ts turn a non-2xx status into a rejection, and the
    dashboard's list updates then depend on what the backend returned. Also
    the agreement of the two responder registries. */
module Integration {
  import opened Common
  import opened Strings
  import opened Tickets
  import App
  import TicketsTable
  import A = AgentSystem
  import B = Backend

  /** Message of the Error thrown on a non-2xx response. */
  const NotOk: string := "Network response was not ok"

  /** `EmailService.sendEmail`: the JSON body on success, a rejection with
      the "not ok" Error otherwise. */
  function GatewaySend(r: Result<B.SendBody, B.HttpError>): (reply: App.SendReply)
    ensures r.Ok? <==> reply.Replied?
    ensures r.Ok? ==> reply == App.Replied(r.value.message, r.value.response)
    ensures r.Err? ==> reply == App.SendFailed(Error(NotOk))
  {
    match r
    case Ok(body) => App.Replied(body.message, body.response)
    case Err(_) => App.SendFailed(Error(NotOk))
  }

  /** The generate-response request: a non-ok response is a failure. */
  function GatewayGenerate(r: Result<string, B.HttpError>): (reply: TicketsTable.GenerateReply)
    ensures r.Ok? <==> reply.Generated?
    ensures r.Ok? ==> reply.response == r.value
  {
    match r
    case Ok(text) => TicketsTable.Generated(text)
    case Err(_) => TicketsTable.GenerateFailed
  }

  /** The backend's success text is exactly the one the dashboard tests for:
      whenever `process_query` returns normally, `processTicket`'s update
      appends the reply to the ticket and marks it PENDING; when it raises,
      the list is left alone. */
  lemma SendSuccessRecognised(s: B.SimpleAgentSystem, ts: seq<Ticket>, ticketId: int, content: string,
                              selection: Option<string>, completion: Option<string>, msgId: string, now: string)
    ensures var reply := GatewaySend(B.SendEmail(s, ticketId, content, selection, completion));
      reply.Replied? ==>
        && reply.message == App.SuccessMessage
        && reply.response == s.ProcessQuery(selection, completion).value
        && forall i :: 0 <= i < |ts| && ts[i].id == ticketId ==>
             var r := App.ProcessUpdate(ts, ticketId, reply.message, reply.response, msgId, now);
             r[i].status == Pending && r[i].messages == ts[i].messages + [App.ReplyMessage(ticketId, reply.response, msgId, now)]
    ensures s.ProcessQuery(selection, completion).Err? ==>
      GatewaySend(B.SendEmail(s, ticketId, content, selection, completion)) == App.SendFailed(Error(NotOk))
  {
  }

  /** Tickets built by the backend are NEW with a single received message, so
      a list loaded from it keeps NEW tickets unanswered. */
  lemma InboxTicketsUnanswered(session: B.ImapSession)
    requires B.GetEmailsFromInbox(session).Ok?
    ensures TicketsTable.NewMeansUnanswered(B.GetEmailsFromInbox(session).value)
  {
    var ts := B.GetEmailsFromInbox(session).value;
    if |ts| == 1 {
      assert ts[0].messages[0].kind == Received;
    }
  }

  /** The two registries agree: with the same entries and default, an answer
      whose characters both runtimes classify alike selects the same agent. */
  lemma SelectionTwinsAgree(ts: A.SimpleAgentSystem, py: B.SimpleAgentSystem, answer: Option<string>)
    requires ts.agents == py.agents && ts.defaultAgent == py.defaultAgent
    requires answer.Some? ==>
      forall i :: 0 <= i < |answer.value| ==> IsSpace(JavaScript, answer.value[i]) == IsSpace(Python, answer.value[i])
    ensures ts.SelectAgent(answer) == py.SelectAgent(answer)
  {
    if answer.Some? {
      StripDialectsAgree(answer.value);
    }
  }

  /** They can disagree: a trailing byte-order mark is stripped in the browser
      but kept by Python, so only the browser finds the agent. */
  lemma SelectionTwinsDiffer(ts: A.SimpleAgentSystem, py: B.SimpleAgentSystem)
    requires ts.agents == py.agents && ts.defaultAgent == py.defaultAgent
    requires "sales" in ts.agents && "sales\U{FEFF}" !in ts.agents && ts.defaultAgent.None?
    ensures ts.SelectAgent(Some("sales\U{FEFF}")) == Some(ts.agents["sales"])
    ensures py.SelectAgent(Some("sales\U{FEFF}")) == None
  {
    var padded := "sales\U{FEFF}";
    StripPadded(JavaScript, [], "sales", "\U{FEFF}");
    assert [] + "sales" + "\U{FEFF}" == padded;
    assert !IsSpace(Python, padded[0]) && !IsSpace(Python, padded[|padded| - 1]);
    StripPadded(Python, [], padded, []);
    assert [] + padded + [] == padded;
  }
}
