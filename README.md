# Supplier-negotiation backend: email routing core in Dafny

This project models the part of the negotiation backend that turns supplier emails into agent
replies:

- the mailbox poller that detects new messages (`EmailClient`, email_client.py);
- the resolver that maps an inbound email to a negotiation and a supplier (`email_watcher`, main.py);
- the event router with its per-negotiation sessions (router.py);
- the conversation agent that answers for one supplier (agents.py);
- two small computations of the HTTP layer: the CORS origin list and the `all_completed`
  summary of `negotiation_status` (main.py).

It proves properties of each.

Files and modules:

| file | module | models |
|---|---|---|
| wrappers.dfy | `Wrappers` | `Option` and `Result` |
| agents.dfy | `Agents` | `NegotiationAgent`: the history it keeps, the conversation it builds, `send_message` |
| router.dfy | `Router` | `EmailEvent`, `EmailEventRouter`, `NegotiationSession` and the handler's effect trace |
| email_client.dfy | `EmailClient` | the credential guards and the `known_ids` / `is_first_run` poll state machine |
| watcher.dfy | `Watcher` | the resolution inside `email_watcher` and the push it ends in |
| endpoints.dfy | `Endpoints` | `allowed_origins` and the `negotiation_status` aggregation |

The outside world becomes inputs:

- Database rows become maps: supplier by contact address, negotiation by id prefix, supplier by
  id prefix.
- The registry of live sessions becomes an ordered list of (negotiation id, suppliers with an
  agent), in the registry's insertion order.
- The completion service, the store insert and the orchestrator refresh become outcomes passed
  in: replied or raised, done or raised.
- An IMAP poll becomes, per folder, a view (connection lost, select refused, search not OK, or a
  listing of ids) and a fetch function (OK with a decoded message, not OK, or raised).
- SMTP and IMAP login checks become pass/fail outcomes.
- Handlers are values naming what they run, and `asyncio.create_task(handler(event))` becomes an
  appended `Dispatch(handler, event)` record.

Where the code and its documentation or tests disagree, the model follows the code:

- **Router key.** The router is keyed by supplier id alone (router.py:38-44, 63-64), so an
  event's negotiation id never affects routing, and two sessions that add the same supplier
  share one entry. The router tests register with `(ng_id, sup_id, handler)` and look up
  `"ng-1:sup-1"` (tests/test_router.py:16, 62). `Router.SelectionIgnoresNegotiation` and
  `Router.SharedSupplierScenario` state the code's behaviour.
- **Unknown senders.** An email from an address that is no supplier's is dropped before its
  subject is read, even when it carries a valid reference tag (main.py:91-98). A reply
  sent from an address other than the supplier's stored contact address is therefore lost.
- **Tag case.** The reference tag is matched case-insensitively, so upper-case hex digits and
  `ref` are accepted. The prefixes are then compared case-sensitively, both against live session
  ids (`startswith`) and in the store lookup. An upper-case tag therefore matches no live session.
- **Agent constructor.** `NegotiationAgent.__init__` is declared `async def` (agents.py:14), so
  it cannot construct an instance as written. The model's constructor sets up the state the body
  describes: the three texts and an empty history.
- **Delivery after a raise.** A message can be yielded, and so routed and answered, more than
  once. The known ids of a folder are updated only after all of its new ids have been fetched
  (email_client.py:184). Say a later pass finds ids 5 and 6, yields 5, and then the fetch of 6
  raises. The watcher reconnects (email_client.py:199-201) with the known ids unchanged, and
  the next pass yields 5 again. Delivery is therefore at least once, not exactly once.
- **Outbound subjects.** The documented send contract cleans line breaks out of the subject.
  `email_send` passes the subject to the message unchanged (email_client.py:69-70). The
  default email policy then refuses a header value that goes on past a line break with a
  `ValueError` before anything is sent. A trailing break passes through.

## Model

| member | source | states |
|---|---|---|
| Agents.ConversationShape | agents.py:31-37 | The conversation has one entry per stored message plus one exactly when the system prompt is non-empty. That extra entry is `("system", prompt)` and comes first. Entry `offset + i` copies message `i`'s role and content verbatim. |
| Agents.NegotiationAgent.constructor | agents.py:14-29 | The agent keeps its three texts and starts with an empty history. |
| Agents.NegotiationAgent.BuildConversation | agents.py:31-37 | The loop builds exactly `Conversation(sysPrompt, messages)`, whose shape `ConversationShape` states. |
| Agents.NegotiationAgent.SendMessage | agents.py:39-63 | The built conversation is sent even when it is empty. A raising call returns `"Bedrock service is currently unavailable. " + error` and leaves the history unchanged. A reply is returned and appended as exactly one assistant message with no timestamp. |
| Router.SelectionPriority | router.py:61-66 | The keyed handler is chosen iff the supplier id is non-empty and registered. Otherwise the default is chosen. Nothing is chosen iff there is neither. |
| Router.SelectionIgnoresNegotiation | router.py:63-64 | Changing the event's negotiation id never changes the handler chosen. |
| Router.DispatchesFor | router.py:61-69 | `push` starts at most one task, exactly one when a handler is selected. The task runs the selected handler and is given the event unchanged. |
| Router.EmailEventRouter.constructor | router.py:30-36 | A new router has no handlers and no default. |
| Router.EmailEventRouter.Register | router.py:38-44 | The supplier now maps to the new handler, replacing any earlier one. Other keys are unchanged. |
| Router.EmailEventRouter.SetDefaultHandler | router.py:46-50 | The default handler becomes the given one. |
| Router.EmailEventRouter.Unregister | router.py:52-54 | The key is removed and all others kept. An absent key leaves the table as it was. |
| Router.EmailEventRouter.Push | router.py:56-69 | Exactly the selected dispatch is appended. Only the dispatch record may change, so the handler table and default are untouched. |
| Router.NegotiationSession.constructor | router.py:80-93 | A new session has its negotiation id, its router and no agents. |
| Router.NegotiationSession.AddAgent | router.py:95-104 | The agent is stored under the supplier. The router entry for that supplier becomes the handler `_make_handler` builds for this session and supplier, whoever registered it before; running that handler is `Handle`. |
| Router.NegotiationSession.Handle | router.py:105-124 | The first effect is the insert of `(ngId, supplier, "supplier", body)`. If the insert raises, the run ends there. Otherwise the orchestrator refresh comes second, and if it raises the run ends after two effects. Otherwise, when an agent is stored for that supplier, the third and last effect is asking it to reply, and the run then raises the `TypeError` of awaiting a `str`. When no agent is stored the run ends normally after two effects. |
| Router.NegotiationSession.Cleanup | router.py:128-131 | Afterwards the router has no entry for any supplier in the session's agents, including entries another session registered. The entries of other suppliers are kept. |
| Router.SharedSupplierScenario | router.py:95-131 | Two sessions add the same supplier. The entry then held for it (`shared`) is the second session's handler, not the first's. After the first session's cleanup, run twice, no entry for that supplier remains. |
| EmailClient.MissingSubject | email_client.py:146-181 | A message without a Subject header, or with an empty one, is yielded with `"(No Subject)"`. Any other keeps its own subject. Folder, sender and body are carried over. |
| EmailClient.KnownNeverShrinks | email_client.py:124-184 | After the first run, a poll only adds to a folder's known ids, and adds nothing the folder did not list. |
| EmailClient.MailboxWatcher.constructor | email_client.py:95-100 | Both watched folders start with no known ids and the first run pending. |
| EmailClient.MailboxWatcher.ScanFolder | email_client.py:114-184 | A lost connection or a refused select leaves the folder's state unchanged. On the first run the known ids become exactly the current ids and nothing is yielded. Later, each yielded message is a distinct new id whose fetch was OK, and every OK new id is yielded when no fetch raised. Afterwards all new ids are known, including the not-OK ones. A raise leaves the known ids as they were. Each yielded record is `EventOf` its fetched message: its folder and id, the sender, the subject as `MissingSubject` states and the body. Nothing yielded was delivered before, as long as everything delivered so far is known. A raise in the middle of a folder breaks this: what was yielded before the raise is yielded again after the reconnect. |
| EmailClient.MailboxWatcher.Sweep | email_client.py:104-201 | Folders are scanned in order. A loss stops the pass and keeps the first-run flag and the later folders' state for the reconnect. A completed pass clears the first-run flag even when a select failed. The first run yields nothing, and later known sets never shrink. Every yielded id was listed, was unknown and fetched OK. A completed later pass reports, for each folder, exactly the listed unknown ids whose fetch was OK. Each yielded record is `EventOf` its fetched message, and no (folder, id) is yielded twice in one pass. |
| EmailClient.EmailClient.constructor | email_client.py:17-19 | A new client holds no credentials. |
| EmailClient.EmailClient.EmailLogin | email_client.py:26-58 | The credentials are stored and `True` returned only when both the SMTP and the IMAP checks pass. Otherwise the first failure is reported as `"Authentication failed: " + error` and the stored credentials are unchanged. |
| EmailClient.EmailClient.EmailSend | email_client.py:60-84 | The send is refused with "User not logged in. Call email_login first." exactly when the address or the password is unset or empty. Otherwise, if the stored address, the recipient or the subject is not `HeaderSafe`, the call fails with the email policy's `HeaderError` before anything is sent. Otherwise the message goes from the stored address to the recipient, with the given subject and body and the stored credentials. |
| EmailClient.HeaderSafeIff | email_client.py:67-70 | A header value is accepted iff every line boundary `str.splitlines` knows ends the value, with "\r\n" counted as one boundary. |
| EmailClient.InjectedHeaderRefused | email_client.py:69-70 | A value with text after a line feed, such as a subject carrying an injected header, is refused. |
| EmailClient.EmailClient.EmailTrigger | email_client.py:86-100 | The trigger is refused with "User not logged in." exactly when not logged in. Otherwise it returns a fresh watcher with empty known sets and the first run pending. |
| Watcher.FirstClose | main.py:87 | The result is the first `>` at or after the position, or none when there is no `>` there. |
| Watcher.AddressFrom | main.py:87 | The result is the leftmost `<x>` with `x` non-empty and free of `>` starting at or after the position, or none when there is no such match. |
| Watcher.ExtractAddressCorrect | main.py:86-89 | The address is the text inside the leftmost `<...>` match, non-empty and without `>`. Without a match, the sender is returned unchanged. |
| Watcher.RefTagFromCorrect | main.py:104-106 | The scan finds no tag iff no position at or after the start holds one. Otherwise it returns the groups of the leftmost tag. |
| Watcher.FindRefTagCorrect | main.py:104-110 | A subject yields a tag iff some position holds `[REF-<8 hex>-<8 hex>]`, with the letters in either case. The groups returned are the leftmost tag's, both 8 hex digits. |
| Watcher.TagRoundTrip | main.py:104-110 | A subject holding the tag built from two 8-digit hex prefixes, with no tag before it, yields exactly those prefixes. |
| Watcher.FirstWithPrefix | main.py:116-119 | The result is the index of the first live session whose id starts with the prefix, and none when no session's does. |
| Watcher.FirstWithSupplier | main.py:147-150 | The result is the index of the first live session holding an agent for the supplier, and none when none does. |
| Watcher.PrefixMatchAt | main.py:116-119 | The prefix scan stops at the first session whose id starts with the prefix. |
| Watcher.SupplierMatchAt | main.py:147-150 | The supplier scan stops at the first session holding the supplier. |
| Watcher.EventFor | main.py:165-172 | The pushed event carries the email's own sender, subject and body and the resolved negotiation and supplier ids. |
| Watcher.UnknownSenderDropped | main.py:91-98 | An email whose extracted sender matches no supplier is dropped, whatever its subject. |
| Watcher.SupplierPriority | main.py:130-142 | The supplier is the store's match for the tag's prefix when there is a tag and a match. Otherwise it is the sender's supplier. |
| Watcher.NegotiationPriority | main.py:115-156 | The tag's negotiation (a live session with the prefix first, else the store's match) wins. Without it, the first live session holding the supplier is used. The email is dropped iff neither exists. |
| Watcher.ReplyRoutesBack | main.py:83-156 | A reply from a known supplier address routes to exactly that negotiation and supplier when all of these hold: its subject carries the tag built from the first eight characters of a live negotiation id and of a supplier id, no earlier session shares the prefix, and the store maps the supplier prefix to that supplier (other prefixes may map anywhere). |
| Watcher.RouteEmail | main.py:83-172 | The loops with early exit return an event exactly when `Resolve` routes the email, and that event carries the resolved ids. |
| Watcher.OnInboundMail | main.py:83-174 | A routed email appends exactly the router's dispatch for its event. A dropped one appends nothing. |
| Endpoints.Strip | main.py:229 | A non-empty stripped text neither starts nor ends with white space (`str.isspace`). |
| Endpoints.StripSlice | main.py:229 | The stripped text is one contiguous stretch of the input, and everything before and after it is white space. |
| Endpoints.StripIdempotent | main.py:229 | Stripping a stripped text changes nothing. |
| Endpoints.Split | main.py:229 | Splitting gives at least one piece, and no piece holds the separator. |
| Endpoints.SplitJoin | main.py:229 | Joining the pieces with the separator gives back the split text. |
| Endpoints.KeptOrder | main.py:228-229 | The comprehension works piece by piece and in order: a single piece gives its stripped form when that is non-empty and nothing otherwise, and the entries for a concatenation of pieces are those of the first part followed by those of the second, duplicates kept. |
| Endpoints.KeptMembers | main.py:228-229 | An entry is kept iff it is non-empty and is the stripped form of some piece. |
| Endpoints.KeptEmpty | main.py:228-230 | Nothing is kept iff every piece strips to the empty string. |
| Endpoints.AllowedOriginsWildcard | main.py:228-230 | The origin list is never empty, and it is `["*"]` when every piece of the setting is blank. |
| Endpoints.AllowedOriginsMembers | main.py:228-230 | When some piece is not blank, the origins are exactly the non-empty stripped pieces. Each is already stripped and contains no comma. |
| Endpoints.AnyCompleted | main.py:503 | A conversation counts as completed iff some message in it is marked completed. |
| Endpoints.AllCompleted | main.py:521 | `all_completed` is false with no agents, and otherwise true iff every agent entry is completed. |
| Endpoints.NegotiationStatus | main.py:494-527 | There is one entry per agent row, in order, with the supplier id, the name when known, the message count and whether any message is completed. `all_completed` holds iff there is at least one agent and every agent has a completed message. The negotiation id is echoed back. |

## Left out

- Database access, SQL text and the connection pool: store answers are inputs (maps or lists).
  The prefix lookups (`LIKE 'prefix%'`, main.py:123-136) become maps from prefix to the row the
  store returns, so which row wins among several matches is not modelled.
- `asyncio` scheduling, task cancellation and interleaving of concurrently running handlers. A
  started task is a recorded `Dispatch`, and a handler run is an ordered trace of effects.
- Router.NegotiationSession.Handle: `send_message` is a plain function (agents.py:39), so the
  `await` at router.py:124 raises `TypeError` once it has returned. The run records only that the
  agent is asked to reply, and what the reply does to the agent's history is stated by
  `Agents.NegotiationAgent.SendMessage`. The message text is the one CPython uses.
- The Bedrock call and the decoding of its JSON reply. The model id, `max_tokens` and the
  floating-point `temperature` of the request body are not modelled, nor is a reply body that
  fails to parse. The call's outcome is replied or raised.
- The store query in `NegotiationAgent.__init__`, whose result is discarded, and the
  `OrchestratorAgent`, whose behaviour the code does not show.
- EmailClient.EmailClient.EmailSend: of the email package's work only the header line-break
  check is modelled. The address parse of From and To records defects rather than raising, and
  `set_content` is not modelled.
- SMTP and IMAP transport, TLS and port selection, and server names and ports from the
  environment. Login checks and poll results are outcomes passed in.
- `decode_header`, `message_from_bytes` and the multipart body walk: a fetched message arrives
  decoded. A message with no From header makes the watcher's `re.search` raise and stop the
  watcher (main.py:87, 180-181); the resolver's sender is a `string`, so this path is not modelled.
- The poll sleep, the reconnect delay and the outer `while True` loops. One call of
  `MailboxWatcher.Sweep` is one pass, and the state between passes survives a loss.
- `EmailEvent.raw`, the provider payload.
- EmailClient.MailboxWatcher.ScanFolder: IMAP ids are modelled as opaque byte strings. They are
  message sequence numbers, so an expunge renumbers them and later messages can reuse a known
  number; that interaction is not modelled.
- The HTTP endpoints other than the two computations named above, the CORS middleware wiring,
  and `lifespan`; `allowed_origins` is modelled as a function of the `FRONTEND_ORIGINS` text.
- go-api/main.go is not part of this model.
