# Support-ticket dashboard: a Dafny model of its core

The dashboard polls an email backend for support tickets, shows them in a
searchable and filterable table, and lets an operator have a reply drafted by a
completion provider and then send it. This project models the parts of that
system that are logic rather than rendering or I/O:

- **The ticket list** (`tickets.dfy`, `app.dfy`, `tickets_table.dfy`). Tickets,
  messages and the four statuses NEW, OPEN, PENDING and CLOSED. The list updates
  the dashboard applies are modelled as functions over `seq<Ticket>`:
  - the draft update after "Generate AI Response";
  - the close update after "Send Response";
  - the reply update after the backend acknowledges a send;
  - the wholesale replacement on refresh.
  
  The per-status counts, the search box and status filter, and the enabling
  conditions of the two buttons are modelled too. The component state that the
  source changes step by step is modelled with classes: `App.AppState` holds the
  list, the error banner and the loading flag, and
  `TicketsTable.TicketsTableView` holds the open ticket and the two busy flags.
  Their methods are proved against the list functions. The bootstrap retry loop
  is a `while` loop over an oracle that says whether each awaited refresh
  rejects.
- **The responder registries** (`agent_system.dfy`, `backend.dfy`). The browser
  and the backend each have a `SimpleAgentSystem`: a map from agent name to
  agent, plus an optional default. Selecting an agent looks up the completion
  provider's stripped answer and falls back to the default. Each completion
  call is an input: `Some(text)`, or `None` when it throws.
- **The backend's ticket construction and endpoints** (`backend.dfy`).
  - The description is truncated to 200 characters plus "...".
  - The sender name is read from the From header.
  - The single NEW ticket is built from the newest inbox email. What each IMAP
    step returned is an input.
  - The send endpoint returns a fixed success message.
  - The generate endpoint replies to the ticket's last message.
- **Glue** (`integration.dfy`, `strings.dfy`, `common.dfy`).
  - The request wrappers turn a non-2xx answer into a rejection.
  - A lemma shows that the backend's success text is the one the dashboard
    tests for.
  - A lemma shows when the two registries agree.
  - String helpers: ASCII lower-casing, substring search, stripping with each
    runtime's white-space set, and decimal rendering of ids.

Behaviour of the code worth noting:

- Sending closes the ticket whenever the backend answers with a 2xx status,
  whatever its `message` says. `processTicket` does not throw on a non-success
  message, so `sendResponse` goes on to close the ticket
  (`TicketsTable.TicketsTableView.SendResponse`). A PENDING ticket therefore does
  not stay PENDING after a non-success reply.
- `sendResponse` closes the ticket in the list it captured when it started. This
  value replaces the list that `processTicket` has just updated, so the reply
  appended there does not survive in the list.
- The Python `process_query` lets a failing reply completion raise. The send and
  generate endpoints turn that into an HTTP 500. So reply generation can fail
  end to end, even though the browser-side registry never fails.
- The open ticket is a copy. A refresh replaces the list but not this copy,
  and "Send Response" closes by id in the current list. Every ticket the
  backend builds has id 1. So after a draft, a refresh that brings in a new NEW
  ticket, and a send from the still-open drafted copy, the new ticket is CLOSED
  with its received message unanswered (`TicketsTable.StaleSelectionClosesNew`).
- The status type uses all four states. The dashboard's own `Ticket` type lists
  only three, but the table styles OPEN as well.

## Model

| member | source | states |
|---|---|---|
| Tickets.UpdateWhere | src/components/tickets/tickets-table.tsx:96-106 | the per-ticket map keeps the list length and order; the ticket with the given id is replaced by `f` of itself and every other ticket is kept |
| App.CountStatus | src/App.tsx:101-103 | a status count never exceeds the list length; its meaning is given by `CountZeroIff` and `CountsPartition` |
| App.GetCounts | src/App.tsx:99-104 | `all` is the list length and each named bucket is the number of tickets with exactly one status (NEW, PENDING, CLOSED) |
| App.CountsPartition | src/App.tsx:99-104 | the NEW, OPEN, PENDING and CLOSED counts add up to the list length |
| App.CountZeroIff | src/App.tsx:101-103 | a status count is zero iff no ticket has that status |
| App.BucketsBound | src/App.tsx:99-104 | needs-supervision + auto-answered + answered ≤ all, with equality iff no ticket is OPEN |
| App.ReplyMessage | src/App.tsx:71-79 | the reply recorded after a send is a `sent` message from system@example.com with subject "Re: Ticket #" and the decimal id, holding the backend's reply, with the given id and time |
| App.ProcessUpdate | src/App.tsx:67-90 | only the exact string "Email processed successfully" changes the list; the matching ticket gains one `sent` message holding the backend's reply with subject "Re: Ticket #id", becomes PENDING and takes the new lastMessage; every other ticket and field is unchanged |
| App.ProcessUpdateExtends | src/App.tsx:68-90 | the send update only appends to conversations and keeps ids, senders and creation times |
| App.Refreshed | src/App.tsx:17-37 | a failed health check keeps the list and shows the "service unavailable" banner; a fetch failure keeps the list and shows the error's message or the fixed fallback; a fetch replaces the list wholesale and clears the banner |
| App.RefreshIdempotent | src/App.tsx:27-28 | refreshing twice against an unchanged backend gives the same list and banner as refreshing once |
| App.RefreshForgetsPrevious | src/App.tsx:27-28 | after a successful refresh the list does not depend on the previous one; an empty fetch gives an "all" count of 0 |
| App.RetrySchedule | src/App.tsx:41-54 | the loop never makes more attempts than its retries nor sleeps more often than it attempts; with no attempt there is no sleep and no exhaustion; exhaustion means every retry was used with one sleep between each pair |
| App.RetryStopsAtFirstSuccess | src/App.tsx:41-54 | the retry loop stops at the first attempt that resolves, having slept once between each pair of attempts, without the terminal banner |
| App.RetryExhaustsAfterAllFail | src/App.tsx:41-54 | when every attempt rejects, exactly `retries` attempts are made, with sleeps between them but not after the last, and the loop reports exhaustion |
| App.RetryBounds | src/App.tsx:41-54 | at most 3 attempts and at least 1; exhaustion iff all of the first 3 attempts reject |
| App.BootstrapMakesOneAttempt | src/App.tsx:30-54 | when the first awaited refresh resolves (and `refreshEmails` never rejects), the loop makes exactly one attempt, no sleep and sets no terminal banner |
| App.LoadEmailsWithRetry | src/App.tsx:40-55 | the `while` loop over a countdown of 3 produces the attempts, sleeps and terminal banner of the retry schedule, and the banner is the fixed "could not connect" text |
| App.AppState.constructor | src/App.tsx:13-15 | the dashboard starts with no tickets, no banner and not loading |
| App.AppState.RefreshEmails | src/App.tsx:17-37 | the new list and banner are those of `Refreshed` on the old list; loading ends false; the call never rejects |
| App.AppState.ProcessTicket | src/App.tsx:63-97 | a failed send sets the banner to the error's message and rejects with the list unchanged; any reply resolves, applying `ProcessUpdate` and leaving the banner alone |
| TicketsTable.DraftMessage | src/components/tickets/tickets-table.tsx:86-94 | the draft is a `sent` message from cesar@sup.com with subject "Re: " and the ticket's title, holding the generated reply, with the given id and time |
| TicketsTable.WithDraft | src/components/tickets/tickets-table.tsx:98-113 | the spread update applied to the drafted ticket in the list and to the open copy: the draft is appended to its messages, it becomes PENDING with the new last-message time, and every other field is kept |
| TicketsTable.DraftUpdate | src/components/tickets/tickets-table.tsx:86-106 | same length and order; the target's messages become its old messages followed by exactly the draft message (`sent`, from cesar@sup.com, "Re: " + title, the generated content, the given id and time); it becomes PENDING with the new last-message time and every other field is kept; other tickets are unchanged |
| TicketsTable.CloseUpdate | src/components/tickets/tickets-table.tsx:136-144 | the target becomes CLOSED with every other field, its messages included, unchanged; other tickets are unchanged |
| TicketsTable.TableUpdatesExtend | src/components/tickets/tickets-table.tsx:96-144 | both table updates only append to conversations |
| TicketsTable.AdvancesIffRanked | src/components/tickets/tickets-table.tsx:96-144 | an update that sets one id's status and keeps every other status moves no ticket back iff the new status ranks at least as high as each one it replaces |
| TicketsTable.CloseAdvances | src/components/tickets/tickets-table.tsx:136-144 | closing never moves a ticket back in the NEW/OPEN → PENDING → CLOSED order |
| TicketsTable.DraftAdvancesIff | src/components/tickets/tickets-table.tsx:96-106 | drafting never moves a ticket back if and only if the target is not already CLOSED |
| TicketsTable.Filter | src/components/tickets/tickets-table.tsx:166-183 | a filter never lengthens the list; each ticket it keeps survives as many times as it occurs, and every other ticket is dropped |
| TicketsTable.SubsequenceSkip | src/components/tickets/tickets-table.tsx:166 | adding an element in front of a list keeps every subsequence of it a subsequence |
| TicketsTable.SubsequenceDrop | src/components/tickets/tickets-table.tsx:166 | removing the head of a subsequence keeps it a subsequence |
| TicketsTable.FilterIsSubsequence | src/components/tickets/tickets-table.tsx:166-183 | filtering keeps the surviving tickets in their original order |
| TicketsTable.FilterMembership | src/components/tickets/tickets-table.tsx:166-183 | a ticket survives iff it is in the list and the predicate keeps it |
| TicketsTable.FilterKeepsAll | src/components/tickets/tickets-table.tsx:176-182 | a predicate that keeps every ticket returns the list itself |
| TicketsTable.FilterCountsStatus | src/components/tickets/tickets-table.tsx:179-181 | filtering on one status leaves as many tickets as that status counts |
| TicketsTable.FilterTwice | src/components/tickets/tickets-table.tsx:166-183 | the search filter followed by the status filter equals one filter on both criteria |
| TicketsTable.MatchesSearch | src/components/tickets/tickets-table.tsx:167-176 | an empty query keeps every ticket; a non-empty one keeps a ticket iff its lower-cased form occurs at some index of the lower-cased title, description, sender email or sender name |
| TicketsTable.MatchesFilter | src/components/tickets/tickets-table.tsx:177-183 | only 'needs-supervision', 'auto-answered' and 'answered' hide anything, each hiding exactly the tickets that are not NEW, PENDING or CLOSED respectively |
| TicketsTable.FilteredTickets | src/components/tickets/tickets-table.tsx:166-183 | the table shows each ticket that passes both the search and the status filter as many times as it is in the list, and no other ticket |
| TicketsTable.FilteredTicketsSpec | src/components/tickets/tickets-table.tsx:166-183 | what the table shows is an order-preserving subsequence of the list, and a ticket is shown iff it passes both the search and the status filter |
| TicketsTable.FilteredTicketsIdentity | src/components/tickets/tickets-table.tsx:176-182 | with an empty query and filter 'all', or an unrecognised filter id, the table shows the whole list |
| TicketsTable.FilterAgreesWithCounts | src/components/tickets/tickets-table.tsx:177-183 | 'needs-supervision', 'auto-answered' and 'answered' show exactly as many tickets as the NEW, PENDING and CLOSED counts, and 'all' as many as the list |
| TicketsTable.SearchMeaning | src/components/tickets/tickets-table.tsx:167-174 | a non-empty query keeps a ticket iff its lower-cased form occurs in the lower-cased title, description, sender email or sender name; the query's case does not matter |
| TicketsTable.GenerateDisabled | src/components/tickets/tickets-table.tsx:312 | Generate is enabled iff nothing is generating or loading and the open ticket is not CLOSED; `GenerateGuardAdvances` shows what this guard protects |
| TicketsTable.GenerateGuardAdvances | src/components/tickets/tickets-table.tsx:312 | a draft the enabled Generate button lets through, on the list's own element with a unique id, moves no ticket back in the NEW, PENDING, CLOSED order |
| TicketsTable.SendDisabled | src/components/tickets/tickets-table.tsx:325-330 | evaluated left to right: while sending, with no ticket open, or on a CLOSED ticket the button is disabled without reaching the last-message test; an enabled button means nothing is loading |
| TicketsTable.SendEnabledIff | src/components/tickets/tickets-table.tsx:325-330 | Send is enabled iff a ticket is open, it is not CLOSED, its last message has type `sent`, and nothing is sending or loading |
| TicketsTable.SendDisabledThrowsIff | src/components/tickets/tickets-table.tsx:328 | the disabled expression throws iff a ticket without messages is open, nothing is sending and the ticket is not CLOSED |
| TicketsTable.UpdatesKeepNewUnanswered | src/components/tickets/tickets-table.tsx:96-144 | the draft, close and reply updates keep every NEW ticket's last message a received one |
| TicketsTable.NoSendFromNew | src/components/tickets/tickets-table.tsx:325-330 | when the open ticket is the list's own element, on a list whose NEW tickets are unanswered, Send is never enabled for a NEW ticket |
| TicketsTable.StaleSelectionClosesNew | src/components/tickets/tickets-table.tsx:136-144 | a drafted open copy enables Send, and closing by its id closes a NEW ticket with the same id in the current list, whose last message is still a received one |
| TicketsTable.TicketsTableView.constructor | src/components/tickets/tickets-table.tsx:65-67 | no ticket open, neither busy flag set |
| TicketsTable.TicketsTableView.Open | src/components/tickets/tickets-table.tsx:212 | clicking a row opens that ticket as a copy and leaves the busy flags alone |
| TicketsTable.TicketsTableView.Dismiss | src/components/tickets/tickets-table.tsx:280 | closing the dialog leaves no ticket open and the busy flags alone |
| TicketsTable.TicketsTableView.GenerateResponse | src/components/tickets/tickets-table.tsx:70-128 | on a generated reply the list gets `DraftUpdate` and the open ticket, if any, gets the same draft; on failure neither changes; the generating flag ends false |
| TicketsTable.TicketsTableView.SendResponse | src/components/tickets/tickets-table.tsx:130-164 | if the send resolves, whatever the message, the ticket is CLOSED in the list captured at the start and in the open view; if it rejects, the list is unchanged and the banner holds the error; a ticket without messages changes nothing; the sending flag ends false |
| AgentSystem.SimpleAgentSystem.constructor | src/lib/agent-system.ts:36-37 | the registry starts empty with no default |
| AgentSystem.SimpleAgentSystem.AddAgent | src/lib/agent-system.ts:53-56 | inserts or overwrites the entry under its name; other entries and the default are unchanged; entries stay filed under their own names |
| AgentSystem.SimpleAgentSystem.SetDefaultAgent | src/lib/agent-system.ts:64-67 | replaces only the default; the registry is unchanged |
| AgentSystem.SimpleAgentSystem.SelectAgent | src/lib/agent-system.ts:74-106 | if the trimmed answer names a registered agent, that agent is returned; if it names none, or the provider throws, the default (possibly none) is returned |
| AgentSystem.SimpleAgentSystem.ProcessQuery | src/lib/agent-system.ts:114-155 | the fixed "Could not determine…" text when no agent is found, the fixed apology when the reply completion throws, the completion otherwise; never rejects |
| AgentSystem.SelectionNamesAgent | src/lib/agent-system.ts:92-97 | a selection other than the default is the agent named by the trimmed answer |
| AgentSystem.SelectionIgnoresPadding | src/lib/agent-system.ts:92-93 | white space around a registered name does not change the selection |
| AgentSystem.DefaultAlwaysAnswers | src/lib/agent-system.ts:117-154 | once a default is set, an agent is always found and the reply is the completion or the apology |
| AgentSystem.CreateConfigured | src/lib/agent-system.ts:158-181 | after initialisation the default is customer_service and the registry holds exactly technical_support and sales |
| AgentSystem.ConfiguredSelectsSales | src/lib/agent-system.ts:163-181 | on the configured registry, "sales" with any white space around it selects sales |
| AgentSystem.ConfiguredFallsBack | src/lib/agent-system.ts:163-181 | on the configured registry, an unknown name or a provider failure selects customer_service |
| Backend.SimpleAgentSystem.constructor | src/backend/main.py:72-80 | the registry starts empty with no default |
| Backend.SimpleAgentSystem.AddAgent | src/backend/main.py:82-84 | inserts or overwrites by name; other entries and the default are unchanged |
| Backend.SimpleAgentSystem.SetDefaultAgent | src/backend/main.py:86-88 | replaces only the default |
| Backend.SimpleAgentSystem.SelectAgent | src/backend/main.py:90-112 | `agents.get(answer.strip(), default_agent)`, and the default when the provider raises |
| Backend.SimpleAgentSystem.ProcessQuery | src/backend/main.py:114-146 | the fixed Spanish text when no agent is found; otherwise the completion, or a raise when the reply completion fails |
| Backend.CreateConfigured | src/backend/main.py:161-178 | the same default and two registered agents as the browser |
| Backend.ProcessQueryRaisesIff | src/backend/main.py:116-146 | `process_query` raises iff an agent was found and the reply completion raised |
| Backend.Describe | src/backend/main.py:241 | the description is the content when it has at most 200 characters, otherwise its first 200 characters followed by "...", 203 in all |
| Backend.DescribeBoundedAndStable | src/backend/main.py:241 | a description has at most 203 characters, starts with the content's first (up to) 200, and describing it again changes nothing |
| Backend.IndexOf | src/backend/main.py:248 | the position of the first occurrence of the character, or the length when it is absent |
| Backend.SenderName | src/backend/main.py:248 | without '<' the name is the whole From value; with one it is the text before the first '<', stripped, and contains no '<' |
| Backend.SenderNameOfMailbox | src/backend/main.py:248 | for `Display Name <address>` the display name comes back |
| Backend.TitleOf | src/backend/main.py:240 | a missing or empty subject becomes "No Subject"; any other subject is kept |
| Backend.BuildTicket | src/backend/main.py:229-251 | the ticket has id 1, status NEW and origin "email"; its title is the subject or "No Subject"; the description is truncated; created and lastMessage are the Date; the sender is the From value and its name; there is exactly one `received` message carrying the IMAP id; a missing From or Date gives an HTTP 500 |
| Backend.GetEmailsFromInbox | src/backend/main.py:181-258 | an IMAP step that raises, or a search that does not return OK, gives HTTP 500; an empty search or a fetch that does not return OK gives an empty list; otherwise the result is exactly the one ticket built from the last id of the search and its fetched email, or the HTTP 500 of building it |
| Backend.SendEmail | src/backend/main.py:270-286 | the body carries "Email processed successfully" and the reply whenever `process_query` returns normally; a raise gives HTTP 500 |
| Backend.GenerateResponse | src/backend/main.py:288-302 | replies to the ticket's last message; a ticket without messages or a raising completion gives HTTP 500 |
| Backend.ConfiguredSendFailsOnlyOnCompletion | src/backend/main.py:275-286 | with a default configured, the send endpoint fails iff the reply completion raises |
| Integration.GatewaySend | src/lib/email-service.ts:32-55 | a 2xx answer resolves with its body; any other rejects with the "Network response was not ok" Error |
| Integration.GatewayGenerate | src/components/tickets/tickets-table.tsx:73-85 | a non-ok generate answer is a failure; an ok one carries the reply text |
| Integration.SendSuccessRecognised | src/App.tsx:65-90 | when the backend's `process_query` returns normally, the dashboard sees the exact success string, and `processTicket`'s update appends the reply and marks the ticket PENDING (the same click's `sendResponse` then closes it); when it raises, the dashboard sees a rejection |
| Integration.InboxTicketsUnanswered | src/backend/main.py:238-251 | tickets loaded from the backend have every NEW ticket's last message received |
| Integration.SelectionTwinsAgree | src/backend/main.py:107-109 | with the same registry, both selections agree on any answer whose characters both runtimes classify alike as white space or not |
| Integration.SelectionTwinsDiffer | src/lib/agent-system.ts:92-93 | a trailing byte-order mark is trimmed by the browser but not by Python, so the two selections can differ |
| Strings.LowerChar | src/components/tickets/tickets-table.tsx:168 | ASCII capitals map to the matching small letters, everything else is unchanged, and no capital remains |
| Strings.Lower | src/components/tickets/tickets-table.tsx:168-173 | lower-casing keeps the length and maps each character on its own |
| Strings.LowerIdempotent | src/components/tickets/tickets-table.tsx:168-173 | lower-casing twice is lower-casing once |
| Strings.Contains | src/components/tickets/tickets-table.tsx:170-173 | a needle that is found is no longer than the haystack, and a needle at the front is always found |
| Strings.ContainsIff | src/components/tickets/tickets-table.tsx:170-173 | the left-to-right scan answers true iff the needle occurs at some index of the haystack |
| Strings.TrimStart | src/lib/agent-system.ts:92 | the result is a suffix, everything dropped is white space, and it does not start with white space |
| Strings.TrimEnd | src/lib/agent-system.ts:92 | the result is a prefix, everything dropped is white space, and it does not end with white space |
| Strings.Strip | src/backend/main.py:107 | the stripped text is a window of the input with only white space before and after it, and it neither starts nor ends with white space |
| Strings.TrimStartPadded | src/lib/agent-system.ts:92 | trimming the start of a string padded in front recovers the string |
| Strings.TrimEndPadded | src/lib/agent-system.ts:92 | trimming the end of a string padded behind recovers the string |
| Strings.StripPadded | src/backend/main.py:107 | stripping recovers any core without white space at its ends, whatever white space surrounds it |
| Strings.StripDialectsAgree | src/backend/main.py:107 | on text whose characters both runtimes classify alike, `trim()` and `strip()` agree |
| Strings.TrimStartDialectsAgree | src/lib/agent-system.ts:92 | the same agreement for leading white space |
| Strings.TrimEndDialectsAgree | src/lib/agent-system.ts:92 | the same agreement for trailing white space |
| Strings.DigitChar | src/App.tsx:73 | a digit value renders as the digit character with that value |
| Strings.NatToDecimal | src/App.tsx:73 | non-empty, all digits, and no leading zero except for 0 itself |
| Strings.IntToDecimal | src/App.tsx:73 | non-empty; starts with '-' iff the id is negative; the digits are those of its magnitude |
| Strings.DecimalRoundTrip | src/App.tsx:73 | reading the rendered digits back gives the number |
| Strings.IntToDecimalInjective | src/App.tsx:73 | different ticket ids give different reply subjects |
| Common.ErrorMessage | src/App.tsx:31 | a thrown Error yields its message; anything else yields the fallback text |

## Left out

- Network, IMAP, MIME decoding, the completion provider's prompts (so `Backend.SendEmail`'s `ticketId` and `content`, which only build the query, are unused), logging, CORS and FastAPI routing: these are I/O. What each call returned is an input instead (`RefreshInput`, `SendReply`, `GenerateReply`, `ImapSession`, and `Option<string>` for each completion).
- Pure presentation is left out: rendering, toasts, date formatting, avatar initials, `header.tsx` and `filter-bar.tsx`.
- The five-minute polling timer and the 2-second sleeps are not modelled. `LoadEmailsWithRetry` counts the sleeps without waiting.
- React's scheduling of queued state updates is not modelled, and neither are refreshes that overlap a draft or a send. Each handler runs start to finish as one method.
- `Date.now()` ids and ISO timestamps are parameters (`msgId`, `now`). One `now` stands for the separate `new Date()` calls inside one handler.
- App.LoadEmailsWithRetry: it is modelled over an oracle of per-attempt rejections, not by calling `AppState.RefreshEmails` inside the loop. `RefreshEmails` promises it never rejects. `BootstrapMakesOneAttempt` states what this means for the loop.
- Strings.Lower: only ASCII letters are lower-cased. JavaScript's `toLowerCase` also maps non-ASCII letters, and some of them to several characters.
- AgentSystem.SimpleAgentSystem.SelectAgent: lookups of names inherited from `Object.prototype`, such as "toString", are not modelled. In JavaScript such a lookup returns a truthy non-agent.
- The registries' knowledge base is never filled, so the prompt context it feeds is left out. The unused `context` field of an agent is left out too.
- Backend.GetEmailsFromInbox: the search result comes in already split into ids. A search answer made only of white space, which would raise an IndexError, is not represented. A connection, login, select, search or fetch that raises is one case, `Unreachable` (HTTP 500), without the step it happened in.
- Backend.HttpError: only the status 500 is kept, not the detail text.
- Strings.IntToDecimal: only integer ids are rendered. JavaScript's exponent form for huge numbers and fractional ids are not modelled.
- `src/backend/test_email.py` is not part of this model. It is a manual IMAP connection script.
