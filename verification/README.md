# AgentPost: a Dafny model of its protocols

AgentPost is a mailbox service for software agents. This project models the parts of it that keep
state across many calls and proves what they keep over every run:

- **The durable inbox** (`Mailbox`, `MailboxSafety`, `Admission`, `Idempotency`, `Racing`,
  `Paging`, `Lifecycle`, `Worker`, `MailboxStore`). Sends and replies are concurrent requests that
  run in separate steps: key lookup, recipient resolution, locking the recipient's row, drawing a
  number from the global sequence, and finishing (binding attachments, inserting the key row,
  committing). Readers follow a cursor, and a worker handles, acks and saves its cursor, and may
  stop anywhere.
- **The credential lifecycle** (`Credentials`, `CredentialSafety`, `RefreshFamilies`,
  `PairingLineage`, `PairingDecisions`, `Redemptions`, `DeviceExchange`, `DevicePolls`,
  `CodeExchange`, `CredentialAnswers`, `Revocation`, `TokenStore`). Pairing sessions, connectors
  and their one current binding, API keys, authorization requests, access tokens and refresh
  families (section 6 of RFC 6749, section 4.6 of RFC 7636, section 3.5 of RFC 8628).
- **The wake dispatcher** (`Wake`, `WakeSafety`, `WakeTiming`, `WakeGaps`, `WakeOutcomes`,
  `WakeOutbox`). A retrying outbox with several workers, in which refresh, claim, external call
  and outcome write are separate steps, and outcomes may be lost.
- **Approvals** (`Approvals`, `ApprovalSafety`, `ApprovalLaws`, `ApprovalAnswers`,
  `ApprovalDesk`). Requests, decisions and one-time confirmations, with row locks and a clock that
  moves between the check and the commit of a call.
- **Ownership and default agents** (`Ownership`, `AccessLaws`, `AccessRegistry`).
- **Bounded algorithms**: the fixed-window rate limiter (`RateLimit`), usernames with their search
  and backfill (`Usernames`, `UsernameForms`), the table of MCP applications (`AppCache`), signed
  cursors (`Cursors`).

Each protocol is a datatype of tables with a total step function; a run is any list of events, so
every interleaving of calls is covered. Rows also carry histories (claims and their clock
readings, calls, origins, poll times) that no decision reads. Where the program updates rows in
place there is a class beside the step function whose methods do the same in place and whose
postconditions tie the tables before and after to that step function: `MailboxStore.Store`,
`TokenStore.Tokens`, `WakeOutbox.Outbox`, `ApprovalDesk.Desk`, `AccessRegistry.Registry`,
`RateLimit.Limiter`, `AppCache.Apps`.

What a step does is said a second time, of the rows alone and without the step functions' own
terms: by rules, policies and earlier deliveries in `Admission`; by pairings, connectors and
tokens in `PairingDecisions` and `CredentialAnswers`; by flights and channels in `WakeOutcomes`;
by roles and confirmations in `ApprovalAnswers`; by who has which role in `AccessLaws`. Each is an
equivalence or a complete list of answers, and what a run ends with is traced to the call that is
responsible for it: a delivery to the policy it met, a credential to its approval, a delivered
wake to its accepted call, a decision to its authorized human, an access to its grant.

## What turned out differently

- A call that another one overtakes under the same key need not be answered by the stored message.
  It is, if and only if it does not crash, carries the same payload, lists no attachments, and is
  still allowed to deliver when it ends: its recipient is known, active and admits it. The key is
  looked up once at the start and again only after the key row collided, and the recipient's
  policy and the attachments are checked in between. `Racing.RacingCall` proves the condition and
  names every other answer; `Racing.RacingRetryDenied` and `Idempotency.RacingRetryRefused` are
  runs in which the second of two equal calls is denied, or told that its attachments are
  unavailable.
- `attempts` of a wake delivery is written from the value the worker refreshed. When another worker
  claims the row and fails in between, the count goes back, and the calls can exceed it:
  `WakeSafety.StaleClaimUndercounts` is such a run. For each delivery by itself,
  `WakeSafety.AttemptsAreClaims` says that attempts equal claims if and only if no claim of it came
  between another worker's refresh and that worker's claim, and `WakeSafety.CallsWithinAttempts`
  gives the exact deficit otherwise. That at most one worker is in flight, and that the count stays
  within the maximum, holds in every run.
- The backoff is kept on the clock a batch reads once at its start, which is what
  `last_attempt_at` records. The time between two claims can be shorter by as much as the first
  one came after the start of its batch (`WakeGaps.ClaimGaps`): `WakeGaps.LateClaimShortensGap` is
  a run. With one dispatcher the full gap is certain if and only if the claim was made at its
  batch clock or no attempt can follow it (`WakeGaps.FullGapIffAtBatchClock`).
- Issuing a pairing's key again after its credential was rotated still answers with the first
  string, which no longer authenticates: `Redemptions.IssuedKeyWorksIffUnrotated`.
- A decision or cancellation that was checked before an approval's deadline and commits after it
  turns a status that readers already saw as expired into approved, rejected or cancelled.
  `ApprovalLaws.SettledUnlessLateCommit` shows that this is the only way a settled status changes,
  `ApprovalLaws.SettledForGood` that over a run it ends up changed if and only if such a commit
  happened, and `ApprovalLaws.LateCommitRevives` is a run.
- The username pattern accepts one-character names, although its message speaks of 3 to 32
  characters: `Usernames.CanonicalLengths`.
- An address of one letter or digit gave that character as a name in the backfill, but gives a
  generated name at registration: `UsernameForms.BackfillAgrees`.
- The username search can ask for the same name twice, because the base can itself be one of the
  numbered names. It needs two queries more than there are names in use if and only if these are
  exactly the first numbered names and the base is one of them, and at most one more otherwise:
  `Usernames.Search`; `Usernames.BaseAskedTwice` gives an address and a name in use for which it
  happens.

## Model

| member | source | states |
|---|---|---|
| MailboxSafety.RunInv | src/agentpost/messaging/service.py:154-424 | Every interleaving of sends, replies, transitions and policy changes keeps the invariant: one request per recipient lock, an uncommitted number lies above every committed number of its recipient, and the tables match each other |
| Admission.EveryDeliveryWasAdmissible | src/agentpost/access/service.py:175-243 | In every run a new delivery from a to r means: r is active; no rule of r blocks a's address or domain; and r is public, or private and a itself, or has an allow rule for a and is not private, or takes contacts only and a delivery went between the two before |
| Admission.LockDecides | src/agentpost/access/service.py:187-215 | The lock step lets a request pass if and only if that holds, and otherwise answers which of rules, policy or inactivity turned it away; it writes nothing either way |
| Admission.EveryMessageArrives | src/agentpost/messaging/service.py:311-331 | In every run a stored send went to the agent with the named address, in a thread of its own; a stored reply, which only a party of its parent can make, to the other party, in the parent's thread, and a result only answers a task |
| Admission.UndisturbedCall | src/agentpost/messaging/service.py:154-292 | From any reachable state, the whole of one send or reply that nobody disturbs: which of the early answers, refusals and failures it gets, or that message, delivery, key and attachments are stored and nothing else |
| Admission.NothingForInactive | src/agentpost/access/service.py:187-190 | An agent that was deactivated receives nothing more, in any run |
| Admission.AgentRowMoves | src/agentpost/access/service.py:71-172 | An agent's policy, rules and activity change only as their own calls say, and not while a delivery holds its row |
| Idempotency.OneMessagePerKey | src/agentpost/messaging/service.py:162-176 | All calls of one sender under one key that are answered with a message carried the same payload and are answered with the same message |
| Idempotency.BijectionInEveryRun | src/agentpost/messaging/service.py:245-278 | In every run messages, deliveries and idempotency rows are in bijection, and each key row describes its message |
| Idempotency.FailureLeavesNothing | src/agentpost/messaging/service.py:388-419 | A request step that is not a commit, a crash included, leaves no message, delivery, key or bound attachment |
| Idempotency.CommitAddsOne | src/agentpost/messaging/service.py:245-278 | A commit adds exactly one message with its delivery and its key, changes no attachment it does not list, and is permitted at that moment |
| Racing.RacingCall | src/agentpost/messaging/service.py:162-278 | Whatever else runs, a call overtaken under its key, from whichever phase it is in, is answered with the stored message if and only if it does not crash, has the equal payload without attachments, and is still allowed to deliver when it ends; every other ending is classified |
| Racing.RacingRetryDenied | src/agentpost/access/service.py:187-215 | A run in which the recipient turns private after the first of two equal calls without attachments commits, and the second is denied |
| Idempotency.RacingRetry | src/agentpost/messaging/service.py:250-278 | The finish step of a flushed call alone: with its key already committed, the stored message if and only if its equal payload lists no attachments, else its attachments are unavailable; a different payload gets a conflict or unavailable attachments |
| Idempotency.RacingRetryRecorded | src/agentpost/messaging/service.py:388-419 | That answer of the finish step is recorded and no row changes |
| Idempotency.LaterRetry | src/agentpost/messaging/service.py:295-309 | A repeated call that starts after the commit is answered from the key row without a change |
| Idempotency.RacingRetryRefused | src/agentpost/attachments/service.py:83-120 | A run in which the second of two equal racing calls with an attachment is refused |
| Paging.Numbers | src/agentpost/messaging/service.py:670-697 | The selected rows of an interval: exactly those that match, in strictly ascending order |
| Paging.FiltersSelect | src/agentpost/messaging/service.py:670-697 | In every run the filters select exactly the own deliveries by the named sender, type and priority, not older than asked, and read and acked as asked by the times on their rows |
| Paging.PageHoldsFirst | src/agentpost/messaging/service.py:698-716 | A page holds the first selected deliveries above the cursor up to its limit, and says there is more if and only if others follow |
| Paging.LaterCommitsAreAbove | src/agentpost/messaging/service.py:250-261 | In every run a delivery that becomes visible later to a recipient has a larger number than all visible to it before, although the sequence is global |
| Paging.RunStable | src/agentpost/access/service.py:187 | No run adds or removes a selected delivery at or below a committed one of the same recipient |
| Paging.FollowingSkipsNothing | src/agentpost/messaging/service.py:651-716 | Whatever commits between pages and whatever limits are chosen, following the cursor without a status filter collects each matching delivery up to the cursor once and in order, and all of them when the last page says there is no more |
| Paging.ReaderSeesEachDeliveryOnce | src/agentpost/messaging/service.py:651-716 | The same from the empty database, spelled out: the collected numbers ascend strictly, are exactly the matching ones up to the cursor, and exactly all matching ones when the last page says there is no more |
| Lifecycle.StatusIsHighest | src/agentpost/messaging/service.py:457-512 | The status after any sequence of read and ack commands is the highest of them and of the start, whatever their order or repetition |
| Lifecycle.TimestampsWrittenOnce | src/agentpost/messaging/service.py:457-512 | The read time is that of the first command and the ack time that of the first ack; neither is overwritten |
| Lifecycle.AckedWasRead | src/agentpost/messaging/service.py:457-512 | An acked delivery has a read time no later than its ack time |
| Lifecycle.RowFollowsCommands | src/agentpost/messaging/service.py:442-525 | Through any run a delivery row changes only by the commands of its own recipient, in their order |
| Lifecycle.StatusInEveryRun | src/agentpost/messaging/service.py:442-525 | In every run the status is the highest command issued so far |
| Worker.RunOnce | sdk/typescript/src/index.ts:751-788 | Whatever others do and wherever the run stops, the saved cursor covers only deliveries whose handler returned and that are acked, handling is in inbox order without gaps, and a run that ends early drained everything committed before it started |
| Worker.Restarted | sdk/typescript/src/index.ts:751-788 | Any number of runs, each resuming from the saved cursor: at every restart it covers only handled and acked deliveries, and each run that ends early drained everything committed before it started |
| MailboxStore.Store.LookUp | src/agentpost/messaging/service.py:162-176 | Looking the key up in place is the begin step |
| MailboxStore.Store.LockRecipient | src/agentpost/access/service.py:175-215 | Locking the row and deciding in place is the lock step, and passes exactly an admissible sender |
| MailboxStore.Store.Flush | src/agentpost/messaging/service.py:250-252 | Flushing message and delivery in place draws the next number of the global sequence |
| MailboxStore.Store.BindAttachments | src/agentpost/attachments/service.py:83-120 | The loop of conditional updates binds all listed attachments or reports that one is unavailable, exactly when not all of them are pending, the sender's and distinct |
| MailboxStore.Store.Commit | src/agentpost/messaging/service.py:245-278 | Binding, inserting the key and committing in place, with its rollbacks, is the finish step |
| MailboxStore.Store.TransitionDelivery | src/agentpost/messaging/service.py:442-525 | The conditional update changes only that recipient's row and fails exactly for an agent that is not the recipient |
| Cursors.Base64RoundTrip | src/agentpost/messaging/cursors.py:30-38 | Decoding undoes encoding on all byte strings |
| Cursors.DecodesIffPadded | src/agentpost/messaging/cursors.py:30-38 | A text decodes if and only if it is symbols of either alphabet with no more padding than is due |
| Cursors.CursorRoundTrip | src/agentpost/messaging/cursors.py:41-91 | An issued cursor decodes to itself if and only if its token is within the length limit, the agent and the filters; otherwise the error says which |
| Cursors.AcceptedIffSigned | src/agentpost/messaging/cursors.py:58-91 | A token is accepted as a cursor if and only if its two parts decode, the second is the hash of the first, and the first reads as that cursor of this version, agent and filters; a wrong hash and a token without two parts are told apart |
| Cursors.AcceptedWasSigned | src/agentpost/messaging/cursors.py:58-91 | An accepted token carries a payload of this agent and these filters whose signature verifies |
| CredentialSafety.BindingsAreActiveConnectors | src/agentpost/onboarding/service.py:609-668 | In every run the bindings are exactly the active connectors, one per agent, each of an active agent |
| CredentialSafety.UnrevokedIsBound | src/agentpost/oauth/service.py:816-837 | An unrevoked token belongs to its agent's bound connector |
| CredentialSafety.ResolvesIffLive | src/agentpost/oauth/auth.py:21-45 | In every run the use-time check accepts exactly the unrevoked and unexpired access tokens: its connector and binding guards never decide |
| CredentialSafety.RefreshNeverFindsReplacement | src/agentpost/oauth/service.py:764-776 | In every run refreshing a live token rotates: the branch for a replaced connector is never taken |
| Revocation.EndedForGood | src/agentpost/onboarding/service.py:937-969 | A connector that was replaced, revoked or deleted with its agent never works again in any run: every key, access and refresh token of it stays revoked and none resolves |
| Revocation.TokensExpire | src/agentpost/oauth/service.py:529-604 | A token that exists at some time neither resolves nor refreshes once its lifetime has passed since, whatever happens in between |
| CodeExchange.CodeRedeemedOnce | src/agentpost/oauth/service.py:386-458 | An authorization code that was redeemed is refused for good, whoever presents it and with whatever redirect and verifier, and nothing changes |
| CodeExchange.OthersCannotRedeem | src/agentpost/oauth/service.py:397-422 | In every run a code presented by another client, with another redirect, without the verifier of its challenge, or too late is refused and changes nothing |
| RefreshFamilies.FamiliesAreChains | src/agentpost/oauth/service.py:739-798 | In every run a refresh family is a linear chain: every token but the newest is consumed and revoked, and at most one refresh and one access token are unrevoked |
| RefreshFamilies.ReplayKillsFamily | src/agentpost/oauth/service.py:757-760 | Presenting a consumed token is refused and leaves its family with nothing unrevoked |
| RefreshFamilies.DeadForever | src/agentpost/oauth/service.py:726-736 | A family with nothing unrevoked never regains a live token, in any run |
| PairingDecisions.DecisionsWereMade | src/agentpost/onboarding/service.py:501-668 | In every run an approved or redeemed pairing goes back to an approval, and a denied one to a denial, by the human named on it, made while it was pending and unexpired |
| PairingDecisions.EveryCredentialWasApproved | src/agentpost/onboarding/service.py:456-690 | In every run each API key and each refresh token goes back to an approval, for its agent and connector, by a human who owned that active agent or got a new one |
| PairingDecisions.DecisionIsWhole | src/agentpost/onboarding/service.py:501-668 | A denial writes the pairing row and nothing else; an approval with a permitted target binds a new active connector to the agent, replaces the one bound before with all its credentials, and nothing else; any other decision changes nothing but marks a lapsed pairing expired |
| CredentialAnswers.ApprovalIsRedeemable | src/agentpost/onboarding/service.py:398-452 | In every run, after an approval and until the pairing lapses, its next redemption is answered with a key, with tokens, or with the code for tokens, according to its mode |
| CredentialAnswers.DenialHolds | src/agentpost/onboarding/service.py:381-382 | In every run a denied pairing stays denied and never yields a key, a token or a code |
| CredentialAnswers.PairingCreated | src/agentpost/onboarding/service.py:254-322 | A device pairing, for API keys or the official client only, is stored pending, undecided and unpolled, for its lifetime |
| CredentialAnswers.AuthorizationStarted | src/agentpost/oauth/service.py:244-334 | An authorization request is stored with its client, redirect and challenge, over a pairing of its own with which it expires |
| CredentialAnswers.CompletionAnswered | src/agentpost/oauth/service.py:337-376 | A request gets a code, which no other has, if and only if it is unexpired, has none yet, and the human who completes it approved its pairing; otherwise it is denied, pending, expired or refused as the pairing says |
| CredentialAnswers.KeyRedemption | src/agentpost/onboarding/service.py:369-452 | In every run, which answer an issue of a pairing's key gets, and that a key means one unrevoked key row of the pairing's agent and connector |
| CredentialAnswers.DeviceRedemption | src/agentpost/oauth/service.py:607-723 | In every run, which answer an exchange of a device code gets; tokens exactly for an approved pairing, or a redeemed one whose pair is still held, with the connector bound and in time |
| CredentialAnswers.CodeRedemption | src/agentpost/oauth/service.py:386-458 | In every run a code is exchanged if and only if client, redirect, verifier, time, request, pairing and connector all fit; the pair is new, of a new family, and the code and pairing are used up |
| CredentialAnswers.Refreshing | src/agentpost/oauth/service.py:739-798 | In every run a refresh answers a new pair if and only if the token is live and the client's own; it continues the family of the presented token, which is consumed, and revokes the rest; a refusal changes nothing, but a replay revokes the family |
| CredentialAnswers.ConnectorRevoked | src/agentpost/onboarding/service.py:917-984 | Only the owner of its agent ends a connector; then it is revoked and unbound and every credential of it, and no other, is revoked |
| CredentialAnswers.KeyRotated | src/agentpost/onboarding/service.py:1177-1230 | An unrevoked key of the agent gets a secret no key had before, in place; anything else is refused and changes nothing |
| CredentialAnswers.AgentDisabled | src/agentpost/control/service.py:486-559 | Only the owner disables an agent; then it is inactive and its connector is ended |
| PairingLineage.OneLineagePerPairing | src/agentpost/onboarding/service.py:369-452 | In every run a pairing has at most one API-key row or one refresh family, never both, over all redemption paths and retries, and no family has two pairings |
| PairingLineage.RunPairings | src/agentpost/onboarding/service.py:456-690 | A decided pairing keeps its agent and connector through every run, and a consumed one stays consumed |
| Redemptions.SameKeyEveryTime | src/agentpost/onboarding/service.py:398-452 | However often and whenever a pairing's key is issued, it is the same string |
| Redemptions.IssuedKeyWorksIffUnrotated | src/agentpost/onboarding/service.py:1177-1230 | In every run the issued string authenticates if and only if the connector's credential was never rotated |
| DeviceExchange.StepPair | src/agentpost/oauth/service.py:680-700 | A step ends an issued token pair exactly when it presents a token of its family or unbinds its connector |
| DeviceExchange.RepeatedDeviceExchange | src/agentpost/oauth/service.py:607-723 | Exchanging a device code again changes nothing and answers the same pair until the deadline, exactly while no token of the family was presented and the connector stayed bound |
| DevicePolls.PendingAnswersBounded | src/agentpost/oauth/service.py:635-655 | The "pending" answers to one device code are at least the poll interval apart on both endpoints together, within one lifetime of the code, and at most ceil(ttl / interval) in number |
| DevicePolls.RunRecords | src/agentpost/onboarding/service.py:383-397 | The recorded poll times are exactly the times of those answers |
| TokenStore.Tokens.RevokeFamilyRows | src/agentpost/oauth/service.py:726-736 | Walking the rows of a family marks all of them, and a row already marked keeps its reason |
| TokenStore.Tokens.RevokeConnectorRows | src/agentpost/oauth/service.py:816-837 | Walking the rows of a connector marks its keys and its unrevoked tokens and no others |
| TokenStore.Tokens.RefreshAccessToken | src/agentpost/oauth/service.py:739-798 | The refresh call in place is the refresh step, on every branch |
| TokenStore.Tokens.DecidePairing | src/agentpost/onboarding/service.py:456-690 | The decision in place is the decision step, with the effects of denials and approvals said of the rows |
| TokenStore.Tokens.RevokeConnector | src/agentpost/onboarding/service.py:917-984 | Revoking a connector in place is the revocation step |
| TokenStore.Tokens.RotateConnectorCredential | src/agentpost/onboarding/service.py:1177-1230 | Rotating a credential in place is the rotation step |
| WakeSafety.InEveryRun | src/agentpost/wakeup/service.py:588-717 | With any number of workers, crashes, lost outcomes, sweeps, disables and reconfigurations: at most one worker in flight per delivery, nobody in flight for a pending one, attempts within the maximum, and at most one notification per delivery |
| WakeSafety.CallsWithinAttempts | src/agentpost/wakeup/service.py:659-709 | In every run, for each delivery: its claims are its attempts plus the claims that came between a refresh and the claim made from it, along the chain that ends in the last claim; so its calls are within its attempts if and only if at least that many claims made no call |
| WakeSafety.AttemptsAreClaims | src/agentpost/wakeup/service.py:634-677 | For each delivery by itself, attempts equal claims if and only if no worker claimed it from a refresh that another claim had overtaken |
| WakeSafety.CallsBounded | src/agentpost/wakeup/service.py:659-709 | Under that condition on the one delivery its sender calls never exceed its attempts, and these never the maximum, whatever happens to others |
| WakeSafety.StaleClaimUndercounts | src/agentpost/wakeup/service.py:634-676 | A run with two calls and one attempt |
| WakeOutcomes.StatusMoves | src/agentpost/wakeup/service.py:588-717 | Every step of every worker moves the status of every delivery exactly as stated: delivered by an accepted call, failed by a refused endpoint, a final failure or an interrupted call, pending again by a failure with attempts left, sending by a claim, cancelled by a channel or run that is gone |
| WakeOutcomes.DueMoves | src/agentpost/wakeup/service.py:659-709 | When a row is due again changes only by a failure with attempts left, by 5 * 2^attempt seconds from its batch clock, or by a channel that sent within the minute, by sixty |
| WakeOutcomes.EveryStatusHasItsCause | src/agentpost/wakeup/service.py:588-717 | In every run a delivery that is no longer pending got its status from such a step and kept it since; so it is delivered only if a flight of it was written as a success |
| WakeOutcomes.ChannelsMove | src/agentpost/wakeup/service.py:452-469 | Every step leaves every channel as stated: saving and disabling keep the time of the last send, which moves exactly when a test or a claimed notification is sent |
| WakeOutcomes.FlightsMove | src/agentpost/wakeup/service.py:659-717 | A flight ends exactly when its outcome is written or lost, alone, with its worker, or with a claim of that worker that is rolled back |
| WakeOutcomes.OneDeliveryPerRun | src/agentpost/wakeup/service.py:288-325 | In every run an agent run has at most one delivery |
| WakeTiming.RunReserved | src/agentpost/wakeup/service.py:452-469 | In every run the reservations of a channel are at least sixty seconds apart, dispatches, tests and reconfigurations taken together |
| WakeTiming.NotificationsPerSpan | src/agentpost/wakeup/service.py:452-469 | Any span of t seconds holds at most floor(t / 60) + 1 reservations, and no more deliveries were sent than reserved |
| WakeTiming.SoleDispatcherBacksOff | src/agentpost/wakeup/service.py:674-709 | With one dispatcher, by the batch clock that last_attempt_at records, attempt k + 1 starts at least 5 * 2^k seconds after attempt k, and attempt n at least 5 * (2^n - 2) seconds after the first |
| WakeGaps.ClaimGaps | src/agentpost/wakeup/service.py:588-709 | With one dispatcher and a monotone clock, by the clock readings of the claims themselves, claim k + 1 comes at least 5 * 2^k seconds after claim k, less the time claim k came after its batch clock |
| WakeGaps.FullGapIffAtBatchClock | src/agentpost/wakeup/service.py:674-707 | In every continuation the next claim waits the full backoff after this one if and only if this one was made at its batch clock, or no further claim can follow it: it is a notification or the last attempt |
| WakeGaps.LateClaimShortensGap | src/agentpost/wakeup/service.py:588-707 | A run of one dispatcher in which two claims are two seconds apart where the backoff is ten |
| WakeOutbox.Outbox.ClaimSeen | src/agentpost/wakeup/service.py:656-677 | Reserving and claiming in place is the claim step, with its rollback when the row is no longer pending |
| WakeOutbox.Outbox.WriteOutcome | src/agentpost/wakeup/service.py:680-715 | Writing the outcome in place is the write step: delivered, failed, or pending with its backoff, by outcome, kind and attempt |
| WakeOutbox.Outbox.DispatchPending | src/agentpost/wakeup/service.py:588-717 | A dispatch pass leaves the tables as the run of its steps does; each given row is settled as its turn says, no other row moves but by the sweep, and the count returned is that of the given rows that are delivered |
| ApprovalSafety.RunInv | src/agentpost/control/approval_service.py:512-605 | Every interleaving of creations, cancellations, decisions and confirmations keeps the tables and the calls in flight consistent |
| ApprovalLaws.DecidedIffOneDecision | src/agentpost/control/approval_service.py:512-605 | In every run an approval is approved or rejected if and only if it has a decision row with that value, and it never has two |
| ApprovalLaws.DecisionsAreBacked | src/agentpost/control/human_security.py:175-206 | In every run each decision was made in the role of owner or operator and has its own confirmation, consumed before its expiry, for that human, session, verdict and approval |
| ApprovalAnswers.EveryDecisionWasAuthorized | src/agentpost/control/approval_service.py:488-509 | In every run each decision goes back to a call of its human for that approval, verdict and note, opened while the approval was pending and unexpired and that human was an owner or operator of its agent |
| ApprovalAnswers.AuthorizationAnswered | src/agentpost/control/approval_service.py:488-509 | On an approval no call holds: allowed if and only if the human is owner or operator and it is pending and unexpired; not allowed for viewers and auditors and not found without a role, with no change; a lapsed one is marked expired |
| ApprovalAnswers.CancellingAnswered | src/agentpost/control/approval_service.py:297-345 | Only the requesting agent cancels, and only what is pending; a cancelled one is answered again, a lapsed one marked expired, a decided one refused |
| ApprovalAnswers.CancellationCommits | src/agentpost/control/approval_service.py:314-345 | The commit of a cancellation sets the status and releases the approval |
| ApprovalAnswers.CreationAnswered | src/agentpost/control/approval_service.py:173-248 | A creation under a new key stores a pending approval with the asked or the default deadline, and nothing else |
| ApprovalAnswers.ConsumptionAnswered | src/agentpost/control/human_security.py:175-206 | A confirmation that no open decision holds is used up if and only if it is for exactly this action, unused and in time |
| ApprovalAnswers.ConfirmationCreated | src/agentpost/control/human_security.py:134-172 | A confirmation is stored for exactly what was asked, unused, with its expiry, and nothing else changes |
| ApprovalDesk.DecisionAlone | src/agentpost/control/approval_service.py:512-605 | A decision under a fresh key with no other call open: refused for want of a role or an open approval, or of a confirmation for exactly this action, else status, decision and use of the confirmation are written together, and nothing else |
| ApprovalLaws.CommitsNeverCollide | src/agentpost/control/approval_service.py:586-604 | With the row locks no commit of a decision violates a unique constraint |
| ApprovalLaws.CreationRepeated | src/agentpost/control/approval_service.py:173-248 | Repeating a creation under its key answers the first approval for the same payload, a conflict otherwise, and changes nothing |
| ApprovalLaws.DecisionRepeated | src/agentpost/control/approval_service.py:524-541 | Repeating a decision under its key answers the decided approval for the same request, a conflict otherwise, and changes nothing, unless that human has a call open |
| ApprovalLaws.SettledUnlessLateCommit | src/agentpost/control/approval_service.py:116-119 | The status readers see, once it left pending, changes in a step if and only if that step commits a call after the approval's deadline |
| ApprovalLaws.SettledForGood | src/agentpost/control/approval_service.py:116-119 | Over every run, readers end up with the status that had settled if and only if the run has no such commit of that approval |
| ApprovalLaws.LateCommitRevives | src/agentpost/control/approval_service.py:488-509 | A run in which readers see expired and then approved |
| ApprovalDesk.Desk.ConsumeHumanConfirmation | src/agentpost/control/human_security.py:175-206 | A confirmation is consumed exactly when it is one for this action, unconsumed and unexpired; otherwise nothing changes |
| ApprovalDesk.Desk.Authorize | src/agentpost/control/approval_service.py:488-509 | The checks of a human in place, answered by role, status and deadline, with the lapsed status written |
| ApprovalDesk.Desk.Decide | src/agentpost/control/approval_service.py:512-605 | The whole call in place: replay, refusal, or status, decision and confirmation written together |
| ApprovalDesk.Desk.CreateHumanConfirmation | src/agentpost/control/human_security.py:134-172 | A confirmation is stored with its human, session, intent and target, expiring after the configured time |
| ApprovalDesk.DecidingKeeps | src/agentpost/control/approval_service.py:512-605 | A decision call keeps the invariant of the tables, so it can be made again |
| ApprovalDesk.AtOnceIsARun | src/agentpost/control/approval_service.py:512-605 | A call that does not overlap others is the run of its open, confirm and commit steps, so the laws hold of it |
| Ownership.OwnershipConsistent | src/agentpost/control/service.py:239-559 | After any sequence of calls a default agent is an active agent its human owns and is missing only if they own none, the owner field mirrors the ownership table, and nobody both owns an agent and holds a grant on it |
| Ownership.DefaultMovesOnlyWhenLost | src/agentpost/control/service.py:413-440 | Every call but choosing a default leaves every human's default as if re-derived: kept while valid, else the first owned active agent by assignment, address and id |
| Ownership.ReplacementIffOwner | src/agentpost/control/service.py:428-440 | There is a first agent to take exactly when the human owns an active one |
| Ownership.ApproveExistingKeeps | src/agentpost/onboarding/service.py:607-608 | Pairing an agent one already owns never sets the default: there already is one |
| AccessLaws.AccessIffGiven | src/agentpost/control/service.py:239-379 | After any sequence of calls a human has a role on an agent if and only if a grant gave it, or an approved pairing made the agent theirs, and no later call took it, gave another role, or gave the agent another owner |
| AccessLaws.DefaultIsEarliest | src/agentpost/control/service.py:413-440 | In every run, unless they choose one, a human's default agent is left alone while it is active and theirs, and otherwise becomes the earliest assigned, lowest addressed of their active agents, or none |
| AccessLaws.PairingNewOwns | src/agentpost/onboarding/service.py:529-608 | An approved pairing for a new agent makes it active and the human's own, and their default if they had none |
| AccessRegistry.MergeNeverChooses | src/agentpost/control/service.py:382-410 | In every run the listed ownerships and grants of a human name each agent once, so the priority merge never chooses |
| AccessRegistry.MergeAccess | src/agentpost/control/service.py:402-408 | The merge loop keeps, for each listed agent, an entry of the highest priority |
| AccessRegistry.Registry.ListAgentAccess | src/agentpost/control/service.py:382-410 | The merged list holds exactly the human's ownerships and grants |
| AccessRegistry.Registry.EnsureHumanDefaultAgent | src/agentpost/control/service.py:413-440 | The default in place is kept or replaced as specified |
| AccessRegistry.Registry.GrantAgentAccess | src/agentpost/control/service.py:239-331 | Granting in place gives the human exactly this role on the agent, takes an owner grant from whoever owned it before, and changes nobody else's access |
| AccessRegistry.Registry.RevokeAgentAccess | src/agentpost/control/service.py:334-379 | Revoking in place leaves the human no role on the agent and everything else as it was, and fails exactly with nothing to remove |
| AccessRegistry.Registry.SetHumanDefaultAgent | src/agentpost/control/service.py:443-483 | Only an active agent of one's own becomes the default, and nothing else changes |
| AccessRegistry.Registry.DisableOwnedAgent | src/agentpost/control/service.py:486-559 | Only the owner disables an agent; it is then inactive and no longer their default |
| RateLimit.Limiter.Enforce | src/agentpost/security/rate_limit.py:31-75 | For every request history the counter table holds the number of requests of each window and nothing else, and a request passes exactly while that number is within its limit |
| RateLimit.TwiceTheLimit | src/agentpost/security/rate_limit.py:45-75 | Any span of one window length sees at most twice the limit let through, in whatever order the requests reach the counters |
| RateLimit.TwiceIsReached | src/agentpost/security/rate_limit.py:45-75 | A history that reaches that bound |
| RateLimit.RetryLandsLater | src/agentpost/security/rate_limit.py:73-75 | Waiting as long as told, or longer, lands in a later window |
| RateLimit.WindowHolds | src/agentpost/security/rate_limit.py:45-75 | Windows are aligned and hold their requests, and the told wait is the least whole number of seconds that passes the window's end |
| Usernames.CanonicalIsFixed | src/agentpost/accounts/usernames.py:19-23 | The canonical names are exactly the fixed points of canonicalization |
| Usernames.CanonicalizeTwice | src/agentpost/accounts/usernames.py:19-23 | What comes out is canonical and passes again unchanged |
| Usernames.CanonicalLengths | src/agentpost/accounts/usernames.py:9-23 | A canonical name has one character or 3 to 32, and each of these lengths occurs |
| UsernameForms.CanonicalizeIffSpells | src/agentpost/accounts/usernames.py:19-23 | A value is accepted as a name if and only if the name is canonical and the value spells it, in any case and with blanks around it |
| UsernameForms.SlugIsWords | src/agentpost/accounts/usernames.py:44-45 | Lower-casing, collapsing and stripping the local part leave its words, the maximal runs of letters and digits, joined by single hyphens |
| UsernameForms.BackfillAgrees | migrations/versions/0023_human_usernames.py:23-33 | The backfill takes a display name that spells a name, else what a registration with the address would get, apart from addresses of one letter and from generated names |
| Usernames.NumberedInjective | src/agentpost/accounts/usernames.py:50-53 | Different suffixes give different candidates for the same base, truncated or not |
| Usernames.Search | src/agentpost/accounts/usernames.py:47-54 | The search returns the first unused candidate after at most as many queries as names in use plus two; more than plus one if and only if the names in use are exactly the first numbered names and the base is one of them |
| Usernames.NameOfAddress | src/agentpost/accounts/usernames.py:44-47 | Every canonical name of three characters or more is the base made from an address, whatever its domain |
| Usernames.BaseAskedTwice | src/agentpost/accounts/usernames.py:44-54 | Addresses whose base is asked for twice, and a name in use with which plus two is reached |
| Usernames.AvailableHumanUsername | src/agentpost/accounts/usernames.py:30-54 | A requested name is canonicalized and refused if in use; otherwise an unused canonical name is found from the address |
| Usernames.Backfill | migrations/versions/0023_human_usernames.py:42-59 | Every existing row gets a canonical name, all pairwise distinct, each the first unused one when its turn came |
| AppCache.UseMoves | integrations/mcp/src/agentpost_mcp/remote.py:254-258 | Using a path moves it to the end of the distinct paths in order of latest use |
| AppCache.MissKept | integrations/mcp/src/agentpost_mcp/remote.py:273-275 | Evicting from the front after a miss forgets exactly what the full order of latest uses puts out of the last k |
| AppCache.Apps.Get | integrations/mcp/src/agentpost_mcp/remote.py:254-276 | The table always holds the last max_resources distinct paths in order of latest use, and every answer is an application built for the requested path, an existing one on a hit |

## Left out

- Deliveries written outside the locking send and reply: upgrade notices (src/agentpost/onboarding/service.py:1128-1139) and task bridges. The commit-order results do not speak of them.
- Task-run leasing, claims and results (src/agentpost/tasks/service.py is not part of this model); a run's status only decides whether a wake delivery is still deliverable.
- Paging with a status filter: statuses change between pages, so a reader with one can miss rows that leave it; archived threads, which the inbox query filters out, are not modelled.
- Worker.RunOnce: one worker per agent at a time; heartbeats and the HTTP client are left out, and a page's cursor is its last number.
- Hashing, HMAC, encryption and random tokens: digests are injective, fresh values are distinct, and the text of a cursor payload is a parameter that must read back what it renders.
- Cursors.CursorRoundTrip: assumes only that reading the rendered payload gives it back; JSON text and UUID parsing are parameters.
- Credentials: times are whole units, so the rounding of a retry delay is not modelled; the confirmation and the idempotency key of a pairing decision, scopes and resource URLs, dynamic client registration and expiry, handles and addresses; each service call is one atomic step. Disabling an agent may abort unchanged, because its revocation reason is not in the table's check.
- DevicePolls.PendingAnswersBounded: "slow down" answers are not counted.
- Wake: webhook transport, DNS and response parsing are the outcome a call gets; channel status only matters through the test whether a delivery can go out, and no claim is made about it; the selection order and limit of a batch are those of the rows given.
- WakeSafety.CallsBounded: one direction only, under the condition that is exact for attempts and claims; when calls are within attempts is said exactly by WakeSafety.CallsWithinAttempts.
- WakeGaps.FullGapIffAtBatchClock: one dispatcher whose clock never goes back.
- WakeOutbox.Outbox.DispatchPending: one worker alone; overlapping workers are the state machine's business.
- Approvals: row locks are those of PostgreSQL; validation of texts, keys and the deadline at creation, the audit rows and the list views are left out. The two clock readings inside one confirmation check are taken as one.
- Ownership: concurrent calls are taken one after the other; the order of addresses is that of numbers; the final sort of the access list is left out.
- RateLimit: the secret digest of a subject is taken as the subject; deleting expired buckets is not part of that function.
- Usernames: text is ASCII. Usernames.Backfill and Usernames.AvailableHumanUsername promise the canonical form while fewer than 10^30 - 2 names are in use, since a longer suffix leaves no room for the base.
- AppCache: building an application and serving requests.
- SQLAlchemy session effects beyond commit and rollback, settings validation, schemas, routes, e-mail, file storage and the user interfaces.
