/** The Python backend (src/backend/main.py): its own responder registry with
    the same fallback selection, the conversion of the newest inbox email into
    a ticket, and the send and generate endpoints. IMAP, MIME decoding and the
    completion provider are inputs: the mailbox session is described by what
    each IMAP step returned, and each completion call by `Some(text)` or by
    `None` when it raises. */
module Backend {
  import opened Common
  import opened Strings
  import opened Tickets
  import A = AgentSystem

  const NoDepartment: string := "No se pudo determinar el departamento apropiado para esta consulta."
  const SuccessMessage: string := "Email processed successfully"
  const NoSubject: string := "No Subject"
  const DescriptionLimit: nat := 200
  const Ellipsis: string := "..."

  /** An `HTTPException`; its detail text is not modelled. */
  datatype HttpError = HttpError(status: int)
  const ServerError: HttpError := HttpError(500)

  /** A completion call that raised. */
  datatype CompletionError = CompletionFailed

  // ---------------------------------------------------------------------------
  // The registry (`SimpleAgentSystem`)
  // ---------------------------------------------------------------------------

  class SimpleAgentSystem {
    var agents: map<string, A.Agent>
    var defaultAgent: Option<A.Agent>

    ghost predicate Valid()
      reads this
    {
      forall k :: k in agents ==> agents[k].name == k
    }

    constructor ()
      ensures Valid() && agents == map[] && defaultAgent == None
    {
      agents, defaultAgent := map[], None;
    }

    /** `add_agent`: inserts or overwrites by name. */
    method AddAgent(name: string, description: string, skills: seq<string>)
      requires Valid()
      modifies this
      ensures Valid()
      ensures agents == old(agents)[name := A.Agent(name, description, skills)]
      ensures defaultAgent == old(defaultAgent)
    {
      agents := agents[name := A.Agent(name, description, skills)];
    }

    /** `set_default_agent`: replaces only the default. */
    method SetDefaultAgent(name: string, description: string, skills: seq<string>)
      modifies this
      ensures defaultAgent == Some(A.Agent(name, description, skills))
      ensures agents == old(agents)
    {
      defaultAgent := Some(A.Agent(name, description, skills));
    }

    /** `select_agent`: `agents.get(answer.strip(), default_agent)`, and the
        default when the provider raises. */
    function SelectAgent(answer: Option<string>): (r: Option<A.Agent>)
      reads this
      ensures answer.Some? && Strip(Python, answer.value) in agents ==>
                r == Some(agents[Strip(Python, answer.value)])
      ensures answer.None? || Strip(Python, answer.value) !in agents ==> r == defaultAgent
    {
      match answer
      case None => defaultAgent
      case Some(text) =>
        var name := Strip(Python, text);
        if name in agents then Some(agents[name]) else defaultAgent
    }

    /** `process_query`: the fixed Spanish text when no agent is found; unlike
        the browser twin, a failing second completion raises. */
    function ProcessQuery(selection: Option<string>, completion: Option<string>): (r: Result<string, CompletionError>)
      reads this
      ensures SelectAgent(selection).None? ==> r == Ok(NoDepartment)
      ensures SelectAgent(selection).Some? ==>
                r == (if completion.Some? then Ok(completion.value) else Err(CompletionFailed))
    {
      if SelectAgent(selection).None? then Ok(NoDepartment)
      else match completion
        case None => Err(CompletionFailed)
        case Some(text) => Ok(text)
    }
  }

  /** Module initialisation, the same configuration as the browser's. */
  method CreateConfigured() returns (s: SimpleAgentSystem)
    ensures fresh(s) && s.Valid()
    ensures s.defaultAgent == Some(A.CustomerService)
    ensures s.agents == map["technical_support" := A.TechnicalSupport, "sales" := A.Sales]
  {
    s := new SimpleAgentSystem();
    s.SetDefaultAgent("customer_service", "general customer service specialist",
                      ["customer service", "general inquiries", "basic assistance"]);
    s.AddAgent("technical_support", "specialist in resolving technical issues",
               ["troubleshooting", "configuration", "technical problems"]);
    s.AddAgent("sales", "specialist in sales and product inquiries", ["products", "pricing", "promotions"]);
  }

  /** `process_query` raises exactly when an agent was found and the second
      completion raised. */
  lemma ProcessQueryRaisesIff(s: SimpleAgentSystem, selection: Option<string>, completion: Option<string>)
    ensures s.ProcessQuery(selection, completion).Err? <==> s.SelectAgent(selection).Some? && completion.None?
  {
  }

  // ---------------------------------------------------------------------------
  // Ticket construction (`get_emails_from_inbox`)
  // ---------------------------------------------------------------------------

  /** `content[:200] + "..." if len(content) > 200 else content` */
  function Describe(content: string): (d: string)
    ensures |content| <= DescriptionLimit ==> d == content
    ensures |content| > DescriptionLimit ==>
              |d| == DescriptionLimit + |Ellipsis| && d[..DescriptionLimit] == content[..DescriptionLimit]
              && d[DescriptionLimit..] == Ellipsis
  {
    if |content| > DescriptionLimit then content[..DescriptionLimit] + Ellipsis else content
  }

  /** A description is at most 203 characters, starts with the content's first
      (up to) 200 characters, and describing it again changes nothing. */
  lemma DescribeBoundedAndStable(content: string)
    ensures |Describe(content)| <= DescriptionLimit + |Ellipsis|
    ensures var n := if |content| < DescriptionLimit then |content| else DescriptionLimit;
            Describe(content)[..n] == content[..n]
    ensures Describe(Describe(content)) == Describe(content)
  {
    var d := Describe(content);
    if |content| > DescriptionLimit {
      assert Describe(d) == d[..DescriptionLimit] + Ellipsis;
      assert d == d[..DescriptionLimit] + d[DescriptionLimit..];
    }
  }

  /** Position of the first `c` in `s`, or `|s|` when there is none. */
  function IndexOf(s: string, c: char): (i: nat)
    ensures i <= |s| && c !in s[..i]
    ensures i < |s| <==> c in s
    ensures i < |s| ==> s[i] == c
  {
    if s == [] then 0
    else if s[0] == c then 0
    else
      var j := IndexOf(s[1..], c);
      assert s[..j + 1] == [s[0]] + s[1..][..j];
      j + 1
  }

  /** The sender name: the From value's text before the first '<', stripped,
      when it has a '<'; otherwise the whole From value. */
  function SenderName(from: string): (name: string)
    ensures '<' !in from ==> name == from
    ensures '<' in from ==> name == Strip(Python, from[..IndexOf(from, '<')]) && '<' !in name
  {
    if '<' in from then
      var before := from[..IndexOf(from, '<')];
      var name := Strip(Python, before);
      assert name == TrimStart(Python, before)[..|name|];
      assert forall k :: 0 <= k < |name| ==> name[k] in before;
      name
    else from
  }

  /** For a From value `Display Name <address>` the display name comes back. */
  lemma SenderNameOfMailbox(display: string, address: string)
    requires '<' !in display
    requires |display| > 0 ==> !IsSpace(Python, display[0]) && !IsSpace(Python, display[|display| - 1])
    ensures SenderName(display + " <" + address + ">") == display
  {
    var from := display + " <" + address + ">";
    assert from[|display| + 1] == '<';
    assert from[..|display| + 1] == display + " ";
    assert '<' !in from[..|display| + 1];
    assert IndexOf(from, '<') == |display| + 1;
    StripPadded(Python, [], display, " ");
    assert [] + display + " " == display + " ";
  }

  /** `email_msg['subject'] or "No Subject"`: a missing or empty subject. */
  function TitleOf(subject: Option<string>): (t: string)
    ensures t == NoSubject <==> subject.None? || subject.value == "" || subject.value == NoSubject
    ensures subject.Some? && subject.value != "" ==> t == subject.value
  {
    if subject.None? || subject.value == "" then NoSubject else subject.value
  }

  /** The headers and decoded text body of one email. */
  datatype ParsedEmail = ParsedEmail(subject: Option<string>, from: Option<string>, date: Option<string>, content: string)

  /** The ticket built from the newest email, with IMAP id `emailId`. A missing
      From or Date header fails validation and becomes an HTTP 500. */
  function BuildTicket(emailId: string, e: ParsedEmail): (r: Result<Ticket, HttpError>)
    ensures r.Err? <==> e.from.None? || e.date.None?
    ensures r.Err? ==> r.error == ServerError
    ensures r.Ok? ==>
      var t := r.value;
      && t.id == 1 && t.status == New && t.origin == "email"
      && t.title == TitleOf(e.subject)
      && t.description == Describe(e.content)
      && t.created == e.date.value && t.lastMessage == e.date.value
      && t.sender == Sender(e.from.value, SenderName(e.from.value))
      && |t.messages| == 1
      && t.messages[0] == Message(emailId, t.title, e.content, None, e.from.value, e.date.value, Received)
  {
    if e.from.None? || e.date.None? then Err(ServerError)
    else
      var title := TitleOf(e.subject);
      var from := e.from.value;
      var message := Message(emailId, title, e.content, None, from, e.date.value, Received);
      Ok(Ticket(1, title, Describe(e.content), "email", [message], e.date.value, e.date.value,
                Sender(from, SenderName(from)), New))
  }

  /** What each IMAP step returned: `Unreachable` when connecting, logging in,
      selecting the inbox, searching or fetching raised; otherwise whether the
      search returned OK, the message ids it found, and the last one's email
      when the fetch returned OK (`None` when it did not). */
  datatype ImapSession =
    | Unreachable
    | Session(searchOk: bool, ids: seq<string>, fetched: Option<ParsedEmail>)

  /** `get_emails_from_inbox` (and the `/api/emails` endpoint, which passes it
      through): at most one ticket, built from the last id of the search. */
  function GetEmailsFromInbox(s: ImapSession): (r: Result<seq<Ticket>, HttpError>)
    ensures s.Unreachable? || !s.searchOk ==> r == Err(ServerError)
    ensures s.Session? && s.searchOk && (s.ids == [] || s.fetched.None?) ==> r == Ok([])
    ensures s.Session? && s.searchOk && s.ids != [] && s.fetched.Some? ==>
              var built := BuildTicket(s.ids[|s.ids| - 1], s.fetched.value);
              && (r.Ok? <==> built.Ok?)
              && (built.Ok? ==> r.value == [built.value])
              && (built.Err? ==> r.error == built.error)
    ensures r.Ok? ==> |r.value| <= 1
    ensures r.Ok? && |r.value| == 1 ==>
              s.Session? && s.ids != [] && s.fetched.Some?
              && BuildTicket(s.ids[|s.ids| - 1], s.fetched.value) == Ok(r.value[0])
    ensures r.Err? ==> r.error == ServerError
  {
    match s
    case Unreachable => Err(ServerError)
    case Session(searchOk, ids, fetched) =>
      if !searchOk then Err(ServerError)
      else if ids == [] then Ok([])
      else match fetched
        case None => Ok([])
        case Some(e) =>
          match BuildTicket(ids[|ids| - 1], e)
          case Ok(t) => Ok([t])
          case Err(err) => Err(err)
  }

  // ---------------------------------------------------------------------------
  // Endpoints
  // ---------------------------------------------------------------------------

  /** The JSON body of a successful `/api/emails/send`. */
  datatype SendBody = SendBody(message: string, response: string)

  /** `/api/emails/send`: the fixed success message whenever `process_query`
      returns normally, an HTTP 500 when it raises. */
  function SendEmail(s: SimpleAgentSystem, ticketId: int, content: string,
                     selection: Option<string>, completion: Option<string>): (r: Result<SendBody, HttpError>)
    reads s
    ensures r.Ok? <==> s.ProcessQuery(selection, completion).Ok?
    ensures r.Ok? ==> r.value == SendBody(SuccessMessage, s.ProcessQuery(selection, completion).value)
    ensures r.Err? ==> r.error == ServerError
  {
    match s.ProcessQuery(selection, completion)
    case Ok(reply) => Ok(SendBody(SuccessMessage, reply))
    case Err(_) => Err(ServerError)
  }

  /** `/api/emails/generate-response`: replies to the ticket's last message;
      a ticket without messages (an IndexError) or a raising completion gives
      an HTTP 500. */
  function GenerateResponse(s: SimpleAgentSystem, ticket: Ticket,
                            selection: Option<string>, completion: Option<string>): (r: Result<string, HttpError>)
    reads s
    ensures |ticket.messages| == 0 ==> r == Err(ServerError)
    ensures |ticket.messages| > 0 ==>
              (r.Ok? <==> s.ProcessQuery(selection, completion).Ok?)
              && (r.Ok? ==> r.value == s.ProcessQuery(selection, completion).value)
    ensures r.Err? ==> r.error == ServerError
  {
    if |ticket.messages| == 0 then Err(ServerError)
    else match s.ProcessQuery(selection, completion)
      case Ok(reply) => Ok(reply)
      case Err(_) => Err(ServerError)
  }

  /** On the configured registry the send endpoint fails only when the reply
      completion raises. */
  lemma ConfiguredSendFailsOnlyOnCompletion(s: SimpleAgentSystem, ticketId: int, content: string,
                                            selection: Option<string>, completion: Option<string>)
    requires s.defaultAgent.Some?
    ensures SendEmail(s, ticketId, content, selection, completion).Err? <==> completion.None?
  {
  }
}
